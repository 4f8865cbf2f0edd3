/** The bounded, newest-first prompt list that every save, delete and clear
    rewrites: saving puts the new record at the head and cuts the list to
    200 entries, deleting keeps the records whose id differs. */
module PromptList {
  import opened Records

  /** Most records the list keeps; older ones are cut off on every save. */
  const MaxPrompts: nat := 200

  function Min(a: int, b: int): int {
    if a <= b then a else b
  }

  /** Saving `p`: it goes to the front, and when the list has grown past 200
      the entries beyond the 200th are cut off, so `p` is followed by as many
      of the old entries, from the front, as still fit. */
  function Prepend(prompts: seq<Record>, p: Record): (r: seq<Record>)
    ensures |r| == Min(|prompts| + 1, MaxPrompts)
    ensures r[0] == p
    ensures r[1..] == prompts[..Min(|prompts|, MaxPrompts - 1)]
  {
    var l := [p] + prompts;
    if |l| > MaxPrompts then l[..MaxPrompts] else l
  }

  /** Deleting by id: the records whose id differs, in their order. */
  function RemoveId(prompts: seq<Record>, id: int): (r: seq<Record>)
    ensures |r| <= |prompts|
    ensures forall i :: 0 <= i < |r| ==> r[i].id != id
    decreases |prompts|
  {
    if prompts == [] then []
    else (if prompts[0].id == id then [] else [prompts[0]]) + RemoveId(prompts[1..], id)
  }

  /** Deleting keeps every record with another id exactly as often as it
      occurred, and drops every record with the id. */
  lemma {:induction false} RemoveIdKeepsOthers(prompts: seq<Record>, id: int)
    ensures forall x :: multiset(RemoveId(prompts, id))[x] == if x.id == id then 0 else multiset(prompts)[x]
    ensures forall x :: x in RemoveId(prompts, id) <==> x in prompts && x.id != id
    decreases |prompts|
  {
    if prompts != [] {
      RemoveIdKeepsOthers(prompts[1..], id);
      assert prompts == [prompts[0]] + prompts[1..];
    }
  }

  /** Deleting an id no record carries changes nothing. */
  lemma {:induction false} RemoveAbsent(prompts: seq<Record>, id: int)
    requires forall i :: 0 <= i < |prompts| ==> prompts[i].id != id
    ensures RemoveId(prompts, id) == prompts
    decreases |prompts|
  {
    if prompts != [] {
      RemoveAbsent(prompts[1..], id);
    }
  }

  /** Deleting the same id twice is deleting it once. */
  lemma {:induction false} RemoveIdempotent(prompts: seq<Record>, id: int)
    ensures RemoveId(RemoveId(prompts, id), id) == RemoveId(prompts, id)
  {
    RemoveAbsent(RemoveId(prompts, id), id);
  }

  /** Deleting works segment by segment, so survivors keep their relative order. */
  lemma {:induction false} RemoveAppend(a: seq<Record>, b: seq<Record>, id: int)
    ensures RemoveId(a + b, id) == RemoveId(a, id) + RemoveId(b, id)
    decreases |a|
  {
    if a == [] {
      assert a + b == b;
    } else {
      var h := if a[0].id == id then [] else [a[0]];
      assert (a + b)[0] == a[0];
      assert (a + b)[1..] == a[1..] + b;
      RemoveAppend(a[1..], b, id);
      calc {
        RemoveId(a + b, id);
        h + RemoveId(a[1..] + b, id);
        h + (RemoveId(a[1..], id) + RemoveId(b, id));
        (h + RemoveId(a[1..], id)) + RemoveId(b, id);
      }
    }
  }

  /** Two deletions give the same list in either order. */
  lemma {:induction false} RemoveCommutes(prompts: seq<Record>, a: int, b: int)
    ensures RemoveId(RemoveId(prompts, a), b) == RemoveId(RemoveId(prompts, b), a)
    decreases |prompts|
  {
    if prompts != [] {
      var h := prompts[0];
      RemoveCommutes(prompts[1..], a, b);
      RemoveAppend(if h.id == a then [] else [h], RemoveId(prompts[1..], a), b);
      RemoveAppend(if h.id == b then [] else [h], RemoveId(prompts[1..], b), a);
    }
  }

  /** `s` in reverse order: the order in which successive saves stack records. */
  function Reverse(s: seq<Record>): (r: seq<Record>)
    ensures |r| == |s|
    ensures forall i :: 0 <= i < |s| ==> r[i] == s[|s| - 1 - i]
  {
    if s == [] then [] else Reverse(s[1..]) + [s[0]]
  }

  /** The list after saving `news[0]`, then `news[1]`, and so on. */
  function SaveAll(prompts: seq<Record>, news: seq<Record>): seq<Record>
    decreases |news|
  {
    if news == [] then prompts else SaveAll(Prepend(prompts, news[0]), news[1..])
  }

  /** Cutting the tail of `b` before a cut of `a + b` that does not reach it changes nothing. */
  lemma PrefixOfCappedTail(a: seq<Record>, b: seq<Record>, m: nat, n: nat)
    requires m <= |b| && n <= |a| + m
    ensures (a + b[..m])[..n] == (a + b)[..n]
  {
    forall i | 0 <= i < n ensures (a + b[..m])[i] == (a + b)[i] {
      if i >= |a| { assert (a + b[..m])[i] == b[..m][i - |a|]; }
    }
  }

  /** Successive saves into a list within the cap keep the newest 200 records,
      newest first: the first-saved record is the first one dropped. */
  lemma {:induction false} SaveAllKeepsNewest(prompts: seq<Record>, news: seq<Record>)
    requires |prompts| <= MaxPrompts
    ensures SaveAll(prompts, news)
            == (Reverse(news) + prompts)[..Min(|news| + |prompts|, MaxPrompts)]
    decreases |news|
  {
    if news == [] {
      assert Reverse(news) + prompts == prompts;
    } else {
      var n := news[0];
      var t := news[1..];
      var b := [n] + prompts;
      var m := Min(|b|, MaxPrompts);
      SaveAllKeepsNewest(Prepend(prompts, n), t);
      assert Prepend(prompts, n) == b[..m];
      assert Reverse(news) == Reverse(t) + [n];
      assert Reverse(t) + b == Reverse(news) + prompts;
      PrefixOfCappedTail(Reverse(t), b, m, Min(|t| + m, MaxPrompts));
    }
  }

  /** 201 saves into an empty list leave exactly 200 records, newest first,
      and the record saved first is the one that was dropped. */
  lemma Save201(news: seq<Record>)
    requires |news| == MaxPrompts + 1
    ensures |SaveAll([], news)| == MaxPrompts
    ensures SaveAll([], news) == Reverse(news[1..])
    ensures forall i :: 0 <= i < MaxPrompts ==> SaveAll([], news)[i] == news[MaxPrompts - i]
  {
    SaveAllKeepsNewest([], news);
    assert Reverse(news) + [] == Reverse(news);
    assert Reverse(news)[..MaxPrompts] == Reverse(news[1..]);
  }
}
