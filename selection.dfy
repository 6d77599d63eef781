/** The selection list kept by the page, and the ways the client edits it. */
module Selection {
  import opened Types
  import opened Seqs

  /** `selection.some(doc => doc.id === id)`. */
  predicate HasId(s: seq<Document>, id: int)
  {
    exists i :: 0 <= i < |s| && s[i].id == id
  }

  /** `selection.map(doc => doc.id)`. */
  function Ids(s: seq<Document>): (r: seq<int>)
    ensures |r| == |s|
    ensures forall i :: 0 <= i < |s| ==> r[i] == s[i].id
  {
    seq(|s|, i requires 0 <= i < |s| => s[i].id)
  }

  /** No id occurs twice in the selection. */
  predicate DistinctIds(s: seq<Document>)
  {
    forall i, j :: 0 <= i < j < |s| ==> s[i].id != s[j].id
  }

  /** `selection.filter(doc => doc.id !== id)`: an order-preserving subsequence that holds
      every entry whose id differs from `id` and no entry whose id equals it. */
  function RemoveId(s: seq<Document>, id: int): (r: seq<Document>)
    ensures IsSubsequence(r, s)
    ensures forall i :: 0 <= i < |r| ==> r[i].id != id
    ensures forall k :: 0 <= k < |s| && s[k].id != id ==> s[k] in r
    ensures forall x :: multiset(r)[x] == if x.id != id then multiset(s)[x] else 0
  {
    if s == [] then []
    else
      assert s == [s[0]] + s[1..];
      if s[0].id == id then RemoveId(s[1..], id)
      else [s[0]] + RemoveId(s[1..], id)
  }

  /** The multi-select toggle: drop every entry with `d`'s id if one is selected, otherwise append `d`. */
  function Toggle(s: seq<Document>, d: Document): seq<Document>
  {
    if HasId(s, d.id) then RemoveId(s, d.id) else s + [d]
  }

  /** The page's single-selection invariant: a selected document is the whole selection list. */
  predicate SingleSelectionConsistent(selectedDocument: Option<Document>, selected: seq<Document>)
  {
    selectedDocument.Some? ==> selected == [selectedDocument.value]
  }

  /** Membership after removal: an id survives exactly when it differs from the removed one. */
  lemma RemoveIdHasId(s: seq<Document>, id: int, x: int)
    ensures HasId(RemoveId(s, id), x) <==> x != id && HasId(s, x)
  {
    var r := RemoveId(s, id);
    SubsequenceMembers(r, s);
    if HasId(r, x) {
      var i :| 0 <= i < |r| && r[i].id == x;
      assert r[i] in s;
    }
    if x != id && HasId(s, x) {
      var k :| 0 <= k < |s| && s[k].id == x;
      assert s[k] in r;
    }
  }

  /** Removing an id that is not selected changes nothing. */
  lemma {:induction false} RemoveIdAbsent(s: seq<Document>, id: int)
    requires !HasId(s, id)
    ensures RemoveId(s, id) == s
  {
    if s != [] {
      assert s[0].id != id;
      RemoveIdAbsent(s[1..], id);
      assert s == [s[0]] + s[1..];
    }
  }

  /** Removal distributes over concatenation. */
  lemma {:induction false} RemoveIdAppend(a: seq<Document>, b: seq<Document>, id: int)
    ensures RemoveId(a + b, id) == RemoveId(a, id) + RemoveId(b, id)
  {
    if a == [] {
      assert a + b == b;
    } else {
      assert (a + b)[1..] == a[1..] + b;
      RemoveIdAppend(a[1..], b, id);
    }
  }

  /** In a selection with distinct ids, no later entry shares the first entry's id. */
  lemma HeadIdNotInTail(s: seq<Document>, x: Document)
    requires DistinctIds(s) && s != [] && x in s[1..]
    ensures x.id != s[0].id
  {
    var k :| 0 <= k < |s[1..]| && s[1..][k] == x;
    assert s[k + 1] == x;
  }

  /** A document whose id no entry of a distinct selection has can be put in front of it. */
  lemma ConsDistinct(x: Document, t: seq<Document>)
    requires DistinctIds(t)
    requires forall y :: y in t ==> y.id != x.id
    ensures DistinctIds([x] + t)
  {
    var r := [x] + t;
    forall a, b | 0 <= a < b < |r| ensures r[a].id != r[b].id {
      assert r[b] == t[b - 1];
      if a > 0 {
        assert r[a] == t[a - 1];
      }
    }
  }

  /** The tail of a selection with distinct ids has distinct ids. */
  lemma TailDistinct(s: seq<Document>)
    requires DistinctIds(s) && s != []
    ensures DistinctIds(s[1..])
  {
    forall a, b | 0 <= a < b < |s[1..]| ensures s[1..][a].id != s[1..][b].id {
      assert s[1..][a] == s[a + 1] && s[1..][b] == s[b + 1];
    }
  }

  /** Removal keeps the ids of a selection distinct. */
  lemma {:induction false} RemoveIdDistinct(s: seq<Document>, id: int)
    requires DistinctIds(s)
    ensures DistinctIds(RemoveId(s, id))
  {
    if s != [] {
      var tail := RemoveId(s[1..], id);
      TailDistinct(s);
      RemoveIdDistinct(s[1..], id);
      if s[0].id != id {
        SubsequenceMembers(tail, s[1..]);
        forall y | y in tail ensures y.id != s[0].id {
          HeadIdNotInTail(s, y);
        }
        ConsDistinct(s[0], tail);
      }
    }
  }

  /** Toggling flips the membership of `d`'s id and leaves every other id as it was. */
  lemma ToggleFlips(s: seq<Document>, d: Document, x: int)
    ensures HasId(Toggle(s, d), x) <==> (if x == d.id then !HasId(s, x) else HasId(s, x))
  {
    if HasId(s, d.id) {
      RemoveIdHasId(s, d.id, x);
    } else if x == d.id {
      assert (s + [d])[|s|] == d;
    } else {
      if HasId(s + [d], x) {
        var i :| 0 <= i < |s + [d]| && (s + [d])[i].id == x;
        assert i < |s| && s[i].id == x;
      }
      if HasId(s, x) {
        var i :| 0 <= i < |s| && s[i].id == x;
        assert (s + [d])[i] == s[i];
      }
    }
  }

  /** Toggling keeps the ids of the selection distinct. */
  lemma ToggleKeepsDistinct(s: seq<Document>, d: Document)
    requires DistinctIds(s)
    ensures DistinctIds(Toggle(s, d))
  {
    if HasId(s, d.id) {
      RemoveIdDistinct(s, d.id);
    } else {
      var t := s + [d];
      forall i, j | 0 <= i < j < |t| ensures t[i].id != t[j].id {
        if j == |s| {
          assert t[i] == s[i] && t[j] == d;
        } else {
          assert t[i] == s[i] && t[j] == s[j];
        }
      }
    }
  }

  /** Toggling a document that is not selected twice gives back the original selection. */
  lemma ToggleTwiceAbsent(s: seq<Document>, d: Document)
    requires !HasId(s, d.id)
    ensures Toggle(s, d) == s + [d]
    ensures Toggle(Toggle(s, d), d) == s
  {
    assert (s + [d])[|s|] == d;
    RemoveIdAppend(s, [d], d.id);
    RemoveIdAbsent(s, d.id);
    assert RemoveId([d], d.id) == [];
  }

  /** Entering multi-select and toggling d1, d2, d1 leaves exactly d2 selected. */
  lemma ToggleScenario(d1: Document, d2: Document)
    requires d1.id != d2.id
    ensures Toggle(Toggle(Toggle([], d1), d2), d1) == [d2]
  {
    assert Toggle([], d1) == [d1];
    assert !HasId([d1], d2.id);
    assert Toggle([d1], d2) == [d1, d2];
    assert [d1, d2][0].id == d1.id;
    assert RemoveId([d1, d2], d1.id) == RemoveId([d2], d1.id);
  }
}
