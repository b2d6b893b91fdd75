/** The modelled parts of the e-mail manager of louvijan/manager/mail.py: splitting the
    configured receiver list and the policy gate in front of delivery. */
module Mail {
  import opened Wrappers
  import opened Text
  import Manager

  function CommaCount(s: string): nat
  {
    if s == [] then 0 else (if s[0] == ',' then 1 else 0) + CommaCount(s[1..])
  }

  /** `sep.join(parts)`. */
  function JoinWith(parts: seq<string>, sep: string): string
  {
    if parts == [] then ""
    else if |parts| == 1 then parts[0]
    else parts[0] + sep + JoinWith(parts[1..], sep)
  }

  /** `s.split(',')`: the comma-free fields between commas, one more than there are commas. */
  function Split(s: string): (r: seq<string>)
    ensures |r| == CommaCount(s) + 1
    ensures forall i :: 0 <= i < |r| ==> ',' !in r[i]
    ensures JoinWith(r, ",") == s
  {
    if s == [] then [""]
    else
      var rest := Split(s[1..]);
      if s[0] == ',' then
        assert JoinWith([""] + rest, ",") == "" + "," + JoinWith(rest, ",");
        [""] + rest
      else
        var r := [[s[0]] + rest[0]] + rest[1..];
        assert JoinWith(r, ",") == [s[0]] + JoinWith(rest, ",") by {
          if |rest| > 1 {
            assert r[1..] == rest[1..];
          }
        }
        r
  }

  /** `map(lambda x: x.strip(), parts)`. */
  function StripAll(parts: seq<string>): seq<string>
  {
    seq(|parts|, i requires 0 <= i < |parts| => Strip(parts[i]))
  }

  /** `get_receivers`: each comma-separated field with its surrounding whitespace removed. */
  function GetReceivers(receivers: string): (r: seq<string>)
    ensures |r| == CommaCount(receivers) + 1
    ensures forall i :: 0 <= i < |r| ==> Stripped(r[i])
  {
    StripAll(Split(receivers))
  }

  /** A leading comma-free field splits off on its own. */
  lemma {:induction false} SplitFirstField(a: string, t: string)
    requires ',' !in a
    ensures Split(a + "," + t) == [a] + Split(t)
  {
    if a == [] {
      assert a + "," + t == [','] + t;
      assert ([','] + t)[1..] == t;
    } else {
      assert (a + "," + t)[1..] == a[1..] + "," + t;
      SplitFirstField(a[1..], t);
      assert [a[0]] + a[1..] == a;
    }
  }

  lemma {:induction false} SplitNoComma(a: string)
    requires ',' !in a
    ensures Split(a) == [a]
  {
    if a != [] {
      SplitNoComma(a[1..]);
      assert [a[0]] + a[1..] == a;
    }
  }

  lemma ReceiversOneField(x: string)
    requires ',' !in x
    ensures GetReceivers(x) == [Strip(x)]
  {
    SplitNoComma(x);
    assert |GetReceivers(x)| == 1 && GetReceivers(x)[0] == Strip(x);
  }

  lemma ReceiversFirstField(x: string, t: string)
    requires ',' !in x
    ensures GetReceivers(x + "," + t) == [Strip(x)] + GetReceivers(t)
  {
    SplitFirstField(x, t);
    assert ([x] + Split(t))[1..] == Split(t);
  }

  lemma JoinHead(w: string, a: string, rest: seq<string>)
    requires rest != []
    ensures w + JoinWith([a] + rest, ", ") == (w + a) + "," + (" " + JoinWith(rest, ", "))
  {
    var j := JoinWith(rest, ", ");
    assert ([a] + rest)[1..] == rest;
    assert JoinWith([a] + rest, ", ") == a + ", " + j;
    assert ", " + j == "," + (" " + j);
  }

  /** Addresses without commas or surrounding whitespace, joined with ", " (after any leading
      whitespace `w`), split back to exactly the original list. */
  lemma {:induction false} ReceiversJoinRoundTrip(w: string, addrs: seq<string>)
    requires addrs != [] && AllSpace(w)
    requires forall i :: 0 <= i < |addrs| ==> ',' !in addrs[i] && Stripped(addrs[i])
    ensures GetReceivers(w + JoinWith(addrs, ", ")) == addrs
    decreases |addrs|
  {
    assert !IsSpace(',');
    assert forall k :: 0 <= k < |w| ==> w[k] != ',';
    var a := addrs[0];
    StripSkipsLeadingSpace(w, a);
    assert ',' !in w + a;
    if |addrs| == 1 {
      ReceiversOneField(w + a);
    } else {
      var rest := addrs[1..];
      assert addrs == [a] + rest;
      var t := " " + JoinWith(rest, ", ");
      JoinHead(w, a, rest);
      ReceiversFirstField(w + a, t);
      ReceiversJoinRoundTrip(" ", rest);
    }
  }

  /** The example of the `get_receivers` docstring, its input written as the three addresses
      joined by ", ". */
  lemma DocExample()
    ensures GetReceivers("one@example.com" + ", " + "two@example.com" + ", " + "three@example.com")
         == ["one@example.com", "two@example.com", "three@example.com"]
  {
    var a, b, c := "one@example.com", "two@example.com", "three@example.com";
    JoinThree(a, b, c);
    assert ',' !in a && ',' !in b && ',' !in c;
    assert Stripped(a) && Stripped(b) && Stripped(c);
    ReceiversJoinRoundTrip("", [a, b, c]);
  }

  lemma JoinThree(a: string, b: string, c: string)
    ensures "" + JoinWith([a, b, c], ", ") == a + ", " + b + ", " + c
  {
    assert [a, b, c][1..] == [b, c] && [b, c][1..] == [c];
    assert JoinWith([b, c], ", ") == b + ", " + c;
    assert JoinWith([a, b, c], ", ") == a + ", " + (b + ", " + c);
  }

  /** An empty receiver setting is one empty address. */
  lemma EmptyReceivers()
    ensures GetReceivers("") == [""]
  {
    assert Strip("") == "";
  }

  /** The nine values of `send_mail_flag` that let mail through. */
  const SendFlags: seq<string> :=
    ["always", "Always", "ALWAYS", "failure", "Failure", "FAILURE", "success", "Success", "SUCCESS"]

  /** What `send` does with a message: hands it to the transport, does nothing, or raises
      AttributeError because the enabled manager has no `send_mail_flag` attribute. */
  datatype SendOutcome<M> = Delivered(message: M) | Skipped | Raised

  /** The gate of `EMailManager.send`; `flag` is the `send_mail_flag` attribute if set. */
  function Send<M>(enable: bool, flag: Option<Manager.Value>, message: M): (r: SendOutcome<M>)
    ensures r.Delivered? <==> enable && flag.Some? && flag.value.Str? && flag.value.s in SendFlags
    ensures r.Delivered? ==> r.message == message
    ensures r.Raised? <==> enable && flag.None?
  {
    if !enable then Skipped
    else if flag.None? then Raised
    else if flag.value.Str? && flag.value.s in SendFlags then Delivered(message)
    else Skipped
  }

  /** The gate looks neither at the message nor at the outcome it reports: 'failure' and
      'success' both let every message through, 'never' lets none through. */
  lemma GateIgnoresMessage<M>(enable: bool, m1: M, m2: M)
    ensures Send(enable, Some(Manager.Str("failure")), m1) == Send(enable, Some(Manager.Str("success")), m1)
    ensures Send(enable, Some(Manager.Str("failure")), m1).Delivered?
        == Send(enable, Some(Manager.Str("failure")), m2).Delivered?
    ensures Send(enable, Some(Manager.Str("never")), m1) == Skipped
  {
  }
}
