/** First-match lookup in an ordered table of substrings, the pattern behind
    `detectSite`, `getSiteIcon` and the supported-site check: the entries are
    tried in table order and the first whose key is a substring of the input
    decides. */
module Tables {
  import opened Js

  /** Position of the first needle included in `s`, or `|needles|` when none is. */
  function FirstIncluded(s: string, needles: seq<string>): (k: nat)
    ensures k <= |needles|
    ensures k < |needles| ==> Includes(s, needles[k])
    ensures forall j :: 0 <= j < k ==> !Includes(s, needles[j])
  {
    if needles == [] then 0
    else if Includes(s, needles[0]) then 0
    else 1 + FirstIncluded(s, needles[1..])
  }

  /** The keys of a table, in table order. */
  function Keys<V>(table: seq<(string, V)>): (ks: seq<string>)
    ensures |ks| == |table|
    ensures forall i :: 0 <= i < |table| ==> ks[i] == table[i].0
  {
    seq(|table|, i requires 0 <= i < |table| => table[i].0)
  }

  /** Entry `k` is the first entry of `table` whose key is a substring of `s`. */
  predicate FirstAt<V>(s: string, table: seq<(string, V)>, k: int) {
    && 0 <= k < |table|
    && Includes(s, table[k].0)
    && forall j :: 0 <= j < k ==> !Includes(s, table[j].0)
  }

  /** The value of the first entry whose key is a substring of `s`, else
      `fallback`: an entry decides only when every earlier one missed. */
  function FirstMatch<V>(s: string, table: seq<(string, V)>, fallback: V): (r: V)
    ensures (forall i :: 0 <= i < |table| ==> !Includes(s, table[i].0)) ==> r == fallback
    ensures forall k :: FirstAt(s, table, k) ==> r == table[k].1
    ensures (exists i :: 0 <= i < |table| && Includes(s, table[i].0))
            ==> exists k :: FirstAt(s, table, k) && r == table[k].1
  {
    var ks := Keys(table);
    var k := FirstIncluded(s, ks);
    assert forall k' :: FirstAt(s, table, k') ==> k' == k by {
      forall k' | FirstAt(s, table, k') ensures k' == k {
        assert ks[k'] == table[k'].0;
      }
    }
    if k < |table| then
      assert FirstAt(s, table, k);
      table[k].1
    else
      fallback
  }
}
