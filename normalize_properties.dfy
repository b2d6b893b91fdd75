/** Properties of the constructor's normalization of its arguments into a queue. */
module NormalizeProperties {
  import opened Wrappers
  import opened Text
  import opened Pipe

  /** A successful construction queues exactly one entry per argument, in argument order. */
  lemma {:induction false} OneStagePerArg(args: seq<Arg>, executable: string)
    requires Normalized(args, executable).Ok?
    ensures |Normalized(args, executable).value| == |args|
    ensures forall i :: 0 <= i < |args| ==> StageOf(args[i], executable) == Ok(Normalized(args, executable).value[i])
  {
    BuiltIndex(args, executable);
    var q := Normalized(args, executable).value;
    forall i | 0 <= i < |args|
      ensures StageOf(args[i], executable) == Ok(q[i])
    {
      assert q[i] == Built(args, executable)[i];
    }
  }

  /** Construction fails exactly when some argument is rejected, and then with the error of the
      first rejected argument. */
  lemma {:induction false} FailsAtFirstRejected(args: seq<Arg>, executable: string)
    ensures Normalized(args, executable).Err? <==> exists i :: 0 <= i < |args| && Rejected(args[i])
    ensures forall i :: 0 <= i < |args| && Rejected(args[i]) && (forall j :: 0 <= j < i ==> !Rejected(args[j])) ==>
      Normalized(args, executable) == Err(StageOf(args[i], executable).error)
  {
    BuiltIndex(args, executable);
    var k := |Built(args, executable)|;
    if k < |args| {
      assert Rejected(args[k]);
    }
    forall i | 0 <= i < |args| && Rejected(args[i]) && (forall j :: 0 <= j < i ==> !Rejected(args[j]))
      ensures Normalized(args, executable) == Err(StageOf(args[i], executable).error)
    {
      assert k <= i;
      assert k == i;
    }
  }

  /** A name is refused exactly when it is whitespace only; otherwise its stripped form follows the
      executable and one space. */
  lemma BlankNameRejected(s: string, executable: string)
    ensures StageOf(Str(s), executable) == Err(EmptyCommand) <==> AllSpace(s)
    ensures !AllSpace(s) ==> StageOf(Str(s), executable) == Ok(Cmd(executable + " " + Strip(s)))
  {
    StripEmptyIffAllSpace(s);
  }

  /** A flat list of kept leaves is its own flattening. */
  lemma {:induction false} FlatIsFixed(xs: seq<Arg>)
    requires forall i :: 0 <= i < |xs| ==> IsLeaf(xs[i])
    ensures Leaves(xs) == xs
  {
    if xs != [] {
      FlatIsFixed(xs[1..]);
      assert IsLeaf(xs[0]);
      assert Leaves(xs) == [xs[0]] + xs[1..];
    }
  }

  /** Flattening is idempotent. */
  lemma FlattenIdempotent(xs: seq<Arg>)
    ensures Leaves(Leaves(xs)) == Leaves(xs)
  {
    FlatIsFixed(Leaves(xs));
  }

  /** Only entries equal to '' are dropped: a whitespace-only name stays in a group, and gets the
      executable prefix without being stripped. */
  lemma WhitespaceLeafKept(executable: string)
    ensures Leaves([Str(""), Str(" ")]) == [Str(" ")]
    ensures ToMembers(Leaves([Str(""), Str(" ")]), executable) == [Command(executable + " " + " ")]
  {
    assert [Str(""), Str(" ")][1..] == [Str(" ")];
    assert Leaves([Str(" ")]) == [Str(" ")] + Leaves([]);
  }

  /** Nesting inside a group is dissolved, keeping depth-first order:
      ['B', ['C', 'D'], 'E'] is the group ['B', 'C', 'D', 'E']. */
  lemma FlattenExample()
    ensures Leaves([Str("B"), List([Str("C"), Str("D")]), Str("E")]) == [Str("B"), Str("C"), Str("D"), Str("E")]
  {
    var b, c, d, e := Str("B"), Str("C"), Str("D"), Str("E");
    var inner := [c, d];
    assert inner[1..] == [d];
    assert Leaves([d]) == [d] + Leaves([]);
    assert Leaves(inner) == [c, d];
    var xs := [b, List(inner), e];
    assert xs[1..] == [List(inner), e] && xs[1..][1..] == [e];
    assert Leaves([e]) == [e] + Leaves([]);
    assert Leaves(xs[1..]) == [c, d] + [e];
  }

  /** A successful construction raises the shared count by the number of pipelines anywhere in its
      arguments, at any depth. */
  lemma {:induction false} CountsEveryPipeline(args: seq<Arg>, executable: string)
    requires Normalized(args, executable).Ok?
    ensures MetCount(args) == DeepPipesSeq(args)
  {
    if args != [] {
      CountsEveryPipeline(args[1..], executable);
      if args[0].List? {
        LeavesCountPipes(args[0].items);
      }
    }
  }
}
