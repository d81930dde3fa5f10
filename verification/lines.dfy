/** What a scan over command-output lines keeps when a later line
    overwrites what an earlier one stored in a dictionary. */
module Lines {
  import opened Wrappers

  /** The value the last recognised line gives, if any line is recognised. */
  function LastMatch<T>(lines: seq<string>, f: string -> Option<T>): Option<T> {
    if |lines| == 0 then None
    else if f(lines[|lines| - 1]).Some? then f(lines[|lines| - 1])
    else LastMatch(lines[..|lines| - 1], f)
  }

  /** A value is kept exactly when some line is recognised, and it is the
      value of the last recognised line. */
  lemma {:induction false} LastMatchIsLast<T>(lines: seq<string>, f: string -> Option<T>)
    ensures LastMatch(lines, f).Some? <==> exists j :: 0 <= j < |lines| && f(lines[j]).Some?
    ensures LastMatch(lines, f).Some? ==>
      exists j :: 0 <= j < |lines| && f(lines[j]) == LastMatch(lines, f) &&
        forall k :: j < k < |lines| ==> f(lines[k]).None?
  {
    if |lines| > 0 {
      var init := lines[..|lines| - 1];
      LastMatchIsLast(init, f);
      if f(lines[|lines| - 1]).None? {
        if exists j :: 0 <= j < |lines| && f(lines[j]).Some? {
          var j :| 0 <= j < |lines| && f(lines[j]).Some?;
          assert init[j] == lines[j];
        }
        if LastMatch(lines, f).Some? {
          var j :| 0 <= j < |init| && f(init[j]) == LastMatch(init, f) &&
            forall k :: j < k < |init| ==> f(init[k]).None?;
          assert f(lines[j]) == LastMatch(lines, f);
          forall k | j < k < |lines| ensures f(lines[k]).None? {
            if k < |init| { assert init[k] == lines[k]; }
          }
        }
      }
    }
  }

  /** The index of the first line that satisfies `p`, if any does. */
  function FirstWhere(lines: seq<string>, p: string -> bool): (r: Option<nat>)
    ensures r.Some? ==> (r.value < |lines| && p(lines[r.value]) &&
                         forall j :: 0 <= j < r.value ==> !p(lines[j]))
    ensures r.None? ==> forall j :: 0 <= j < |lines| ==> !p(lines[j])
  {
    if |lines| == 0 then None
    else
      var init := lines[..|lines| - 1];
      assert forall j :: 0 <= j < |init| ==> init[j] == lines[j];
      match FirstWhere(init, p)
      case Some(k) => Some(k)
      case None => if p(lines[|lines| - 1]) then Some(|lines| - 1) else None
  }

  /** On the lines from `k` on, the last match is the last line's value if it
      has one, and otherwise the last match among the lines from `k` before it. */
  lemma LastMatchOfSuffix<T>(lines: seq<string>, k: nat, f: string -> Option<T>)
    requires k < |lines|
    ensures LastMatch(lines[k..], f) ==
      if f(lines[|lines| - 1]).Some? then f(lines[|lines| - 1]) else LastMatch(lines[..|lines| - 1][k..], f)
  {
    var after := lines[k..];
    assert after[|after| - 1] == lines[|lines| - 1];
    assert after[..|after| - 1] == lines[..|lines| - 1][k..];
  }

  /** The last value `f` finds after the first line satisfying `p`, if there is such a line. */
  function LastMatchAfterFirst<T>(lines: seq<string>, p: string -> bool, f: string -> Option<T>): Option<T> {
    match FirstWhere(lines, p)
    case None => None
    case Some(k) => LastMatch(lines[k + 1..], f)
  }

  /** Past the first line satisfying `p`, one more line is one more candidate value. */
  lemma LastMatchAfterFirstStep<T>(lines: seq<string>, p: string -> bool, f: string -> Option<T>)
    requires |lines| > 0 && FirstWhere(lines[..|lines| - 1], p).Some?
    ensures LastMatchAfterFirst(lines, p, f) ==
      if f(lines[|lines| - 1]).Some? then f(lines[|lines| - 1])
      else LastMatchAfterFirst(lines[..|lines| - 1], p, f)
  {
    var k := FirstWhere(lines[..|lines| - 1], p).value;
    assert FirstWhere(lines, p) == Some(k);
    LastMatchOfSuffix(lines, k + 1, f);
  }

  /** Before any line satisfies `p`, nothing is found: the line that first
      satisfies it starts an empty run. */
  lemma LastMatchAfterFirstNone<T>(lines: seq<string>, p: string -> bool, f: string -> Option<T>)
    requires |lines| > 0 && FirstWhere(lines[..|lines| - 1], p).None?
    ensures LastMatchAfterFirst(lines, p, f).None?
  {
    if p(lines[|lines| - 1]) {
      assert lines[|lines|..] == [];
    }
  }
}
