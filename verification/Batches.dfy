/** Sorted ID lists and their split into Telegram's 1-to-100 delete requests. */
module Batches {
  import opened Prelude

  const BATCH_LIMIT: nat := 100

  lemma {:induction false} LeastOf(s: set<int>) returns (m: int)
    requires s != {}
    ensures m in s
    ensures forall x :: x in s ==> m <= x
    decreases |s|
  {
    var a := Member(s);
    var rest := s - {a};
    assert s == rest + {a};
    m := a;
    if rest != {} {
      var low := LeastOf(rest);
      if low < a { m := low; }
    }
  }

  lemma MinimumExists(s: set<int>)
    requires s != {}
    ensures exists m :: m in s && forall x :: x in s ==> m <= x
  {
    var m := LeastOf(s);
  }

  function Minimum(s: set<int>): (m: int)
    requires s != {}
    ensures m in s
    ensures forall x :: x in s ==> m <= x
  {
    MinimumExists(s);
    var m :| m in s && forall x :: x in s ==> m <= x;
    m
  }

  /** The ascending enumeration of a set of message IDs. */
  function Sorted(s: set<int>): (ids: seq<int>)
    decreases |s|
  {
    if s == {} then [] else var m := Minimum(s); [m] + Sorted(s - {m})
  }

  lemma {:induction false} SortedIsExact(s: set<int>)
    ensures forall x :: x in Sorted(s) <==> x in s
    ensures forall i, j :: 0 <= i < j < |Sorted(s)| ==> Sorted(s)[i] < Sorted(s)[j]
    decreases |s|
  {
    if s != {} {
      var m := Minimum(s);
      SortedIsExact(s - {m});
      forall i, j | 0 <= i < j < |Sorted(s)| ensures Sorted(s)[i] < Sorted(s)[j] {
        var rest := Sorted(s - {m});
        if i == 0 {
          assert rest[j - 1] in rest;
          assert rest[j - 1] in s - {m};
        } else {
          assert rest[i - 1] < rest[j - 1];
        }
      }
    }
  }

  function Split(ids: seq<int>): (batches: seq<seq<int>>)
    decreases |ids|
  {
    if ids == [] then []
    else if |ids| <= BATCH_LIMIT then [ids]
    else [ids[..BATCH_LIMIT]] + Split(ids[BATCH_LIMIT..])
  }

  function Flatten(batches: seq<seq<int>>): seq<int> {
    if batches == [] then [] else batches[0] + Flatten(batches[1..])
  }

  /** No message ID is lost, repeated or reordered, and no request is empty or too large. */
  lemma {:induction false} SplitIsLossless(ids: seq<int>)
    ensures Flatten(Split(ids)) == ids
    ensures forall i :: 0 <= i < |Split(ids)| ==> 1 <= |Split(ids)[i]| <= BATCH_LIMIT
    decreases |ids|
  {
    if ids == [] {
    } else if |ids| <= BATCH_LIMIT {
      assert Split(ids)[1..] == [];
      assert ids + [] == ids;
    } else {
      SplitIsLossless(ids[BATCH_LIMIT..]);
      assert Split(ids)[1..] == Split(ids[BATCH_LIMIT..]);
      assert ids[..BATCH_LIMIT] + ids[BATCH_LIMIT..] == ids;
    }
  }

  /** `chunks(100)` as a loop over the ID list. */
  method DeleteMessageBatches(ids: seq<int>) returns (batches: seq<seq<int>>)
    ensures batches == Split(ids)
  {
    batches := [];
    var rest := ids;
    while rest != []
      invariant batches + Split(rest) == Split(ids)
      decreases |rest|
    {
      var n := if |rest| <= BATCH_LIMIT then |rest| else BATCH_LIMIT;
      ghost var before := Split(rest);
      assert before == [rest[..n]] + Split(rest[n..]) by {
        if |rest| <= BATCH_LIMIT { assert rest[n..] == [] && rest[..n] == rest; }
      }
      batches := batches + [rest[..n]];
      rest := rest[n..];
    }
  }
}
