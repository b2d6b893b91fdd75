/** The plugin-manager base class of louvijan/manager/base.py: a manager is enabled iff its
    configuration section exists, carries the section's options as attributes, and converts
    option strings to booleans, integers or strings on request. */
module Manager {
  import opened Wrappers

  /** A Python attribute value that `getattr` can produce or receive: `bool`, `int` or `str`. */
  datatype Value = Bool(b: bool) | Int(n: nat) | Str(s: string)

  /** Parsed configuration: section name to option name to raw option text. */
  type Config = map<string, map<string, string>>

  /** The spellings `getattr` maps to True and to False; note '0' is true and '1' false. */
  const TrueSpellings: seq<string> := ["True", "true", "TRUE", "T", "0"]
  const FalseSpellings: seq<string> := ["False", "false", "FALSE", "F", "1"]

  predicate IsDigit(c: char)
  {
    '0' <= c <= '9'
  }

  /** `str.isdigit()` restricted to the ASCII digits: non-empty and digits only. */
  predicate IsDigits(s: string)
  {
    s != [] && forall i :: 0 <= i < |s| ==> IsDigit(s[i])
  }

  /** `int(s)` for a string of decimal digits; zero exactly when every digit is '0'. */
  function DigitsValue(s: string): (r: nat)
    requires forall i :: 0 <= i < |s| ==> IsDigit(s[i])
    ensures r == 0 <==> forall i :: 0 <= i < |s| ==> s[i] == '0'
  {
    if s == [] then 0
    else
      var init := s[..|s| - 1];
      assert IsDigit(s[|s| - 1]);
      assert forall i :: 0 <= i < |init| ==> init[i] == s[i];
      DigitsValue(init) * 10 + (s[|s| - 1] as int - '0' as int)
  }

  function DigitChar(d: nat): (c: char)
    requires d < 10
    ensures IsDigit(c) && c as int - '0' as int == d
  {
    ['0', '1', '2', '3', '4', '5', '6', '7', '8', '9'][d]
  }

  /** `str(n)` for a non-negative integer: its decimal digits without leading zeros. */
  function NatToString(n: nat): (r: string)
    ensures IsDigits(r)
    ensures |r| > 1 ==> r[0] != '0'
  {
    if n < 10 then [DigitChar(n)] else NatToString(n / 10) + [DigitChar(n % 10)]
  }

  /** `int(str(n)) == n`. */
  lemma {:induction false} DigitsRoundTrip(n: nat)
    ensures DigitsValue(NatToString(n)) == n
  {
    var r := NatToString(n);
    if n >= 10 {
      assert r[..|r| - 1] == NatToString(n / 10);
      DigitsRoundTrip(n / 10);
    }
  }

  /** `str(res)` for the values `getattr` handles: a boolean gives a spelling that converts back
      to it, an integer gives digits whose value is the integer, and a string is kept. */
  function ToStr(v: Value): (r: string)
    ensures v.Bool? ==> (if v.b then r in TrueSpellings else r in FalseSpellings)
    ensures v.Int? ==> IsDigits(r) && DigitsValue(r) == v.n
    ensures v.Str? ==> r == v.s
  {
    match v
    case Bool(b) => if b then "True" else "False"
    case Int(n) => DigitsRoundTrip(n); NatToString(n)
    case Str(s) => s
  }

  /** The conversion of `PluginManager.getattr` applied to an attribute value. */
  function Convert(v: Value): (r: Value)
    ensures r == Bool(true) <==> ToStr(v) in TrueSpellings
    ensures r == Bool(false) <==> ToStr(v) in FalseSpellings
    ensures r.Int? <==> IsDigits(ToStr(v)) && ToStr(v) !in TrueSpellings && ToStr(v) !in FalseSpellings
    ensures r.Int? ==> r.n == DigitsValue(ToStr(v))
    ensures r.Str? ==> r.s == ToStr(v)
  {
    var res := ToStr(v);
    if res in TrueSpellings then Bool(true)
    else if res in FalseSpellings then Bool(false)
    else if IsDigits(res) then Int(DigitsValue(res))
    else Str(res)
  }

  /** A plugin manager: `enable` and the attributes copied from its configuration section. */
  class PluginManager {
    var enable: bool
    var options: map<string, Value>

    /** Looks the section up; a missing section disables the manager and sets nothing. */
    constructor (name: string, config: Config)
      ensures enable <==> name in config
      ensures !enable ==> options == map[]
      ensures enable ==> options == map k | k in config[name] :: Str(config[name][k])
    {
      if name !in config {
        enable := false;
        options := map[];
      } else {
        var d := config[name];
        var copied: map<string, Value> := map[];
        var todo := d.Keys;
        while todo != {}
          invariant todo <= d.Keys
          invariant copied == map k | k in d.Keys - todo :: Str(d[k])
          decreases todo
        {
          var k :| k in todo;
          copied := copied[k := Str(d[k])];
          todo := todo - {k};
        }
        enable := true;
        options := copied;
      }
    }

    /** `self.x = getattr(self, 'x', default)`: keeps a configured value, else sets the default. */
    method SetDefault(key: string, default: Value)
      modifies this`options
      ensures key in old(options) ==> options == old(options)
      ensures key !in old(options) ==> options == old(options)[key := default]
    {
      if key !in options {
        options := options[key := default];
      }
    }

    /** `getattr(option)`: None when the attribute is missing (Python raises AttributeError). */
    function GetAttr(option: string): (r: Option<Value>)
      reads this
      ensures r.None? <==> option !in options
      ensures r.Some? ==> r.value == Convert(options[option])
    {
      if option in options then Some(Convert(options[option])) else None
    }
  }

  /** Converting a boolean result again gives the same boolean. */
  lemma ConvertBoolStable(v: Value)
    requires Convert(v).Bool?
    ensures Convert(Convert(v)) == Convert(v)
  {
  }

  /** Converting a string result again leaves it unchanged. */
  lemma ConvertStrStable(v: Value)
    requires Convert(v).Str?
    ensures Convert(Convert(v)) == Convert(v)
  {
  }

  /** An integer result survives a second conversion iff it is at least 2: `str(0)` and `str(1)`
      are '0' and '1', which the boolean checks catch first (reachable from '00' or '01'). */
  lemma {:induction false} ConvertIntStable(v: Value)
    requires Convert(v).Int?
    ensures Convert(Convert(v)) == Convert(v) <==> Convert(v).n >= 2
  {
    var n := Convert(v).n;
    var s := NatToString(n);
    if n >= 10 {
      assert |s| > 1;
      assert s !in TrueSpellings && s !in FalseSpellings;
    } else if n >= 2 {
      assert s == [DigitChar(n)];
    }
    DigitsRoundTrip(n);
  }
}
