/** The list logic of the watch-list store. Pair ids are compared through
    `canon`, the case folding the store applies (`toLowerCase` in the
    extension), which is kept abstract: any total function on strings. */
module WatchList {
  import opened Types

  /** The canonical ids that occur in a list. */
  function Ids(canon: string -> string, s: seq<Token>): set<string>
  {
    set t | t in s :: canon(t.pairId)
  }

  /** Some entry of `s` has the same canonical id as `id`. */
  predicate HasId(canon: string -> string, s: seq<Token>, id: PairId)
  {
    exists i :: 0 <= i < |s| && canon(s[i].pairId) == canon(id)
  }

  /** No two entries share a canonical id. */
  predicate DistinctIds(canon: string -> string, s: seq<Token>)
  {
    forall i, j :: 0 <= i < j < |s| ==> canon(s[i].pairId) != canon(s[j].pairId)
  }

  /** The watch-list invariant: at most MAX_TOKENS entries, no canonical
      id twice. */
  predicate WellFormed(canon: string -> string, s: seq<Token>)
  {
    |s| <= MAX_TOKENS && DistinctIds(canon, s)
  }

  /** `r` is obtained from `s` by deleting entries (order is kept). */
  predicate Subsequence<T(==)>(r: seq<T>, s: seq<T>)
    decreases |s|
  {
    if r == [] then true
    else if s == [] then false
    else if r[|r| - 1] == s[|s| - 1] then Subsequence(r[..|r| - 1], s[..|s| - 1])
    else Subsequence(r, s[..|s| - 1])
  }

  /** The de-duplication `setTokens` applies: an entry is kept exactly when
      no earlier entry has the same canonical id. */
  function FirstOccurrences(canon: string -> string, s: seq<Token>): seq<Token>
    decreases |s|
  {
    if s == [] then []
    else
      var n := |s| - 1;
      FirstOccurrences(canon, s[..n]) + (if canon(s[n].pairId) in Ids(canon, s[..n]) then [] else [s[n]])
  }

  /** The filter `removeToken` applies: every entry whose canonical id is
      that of `id` is dropped. */
  function RemoveId(canon: string -> string, s: seq<Token>, id: PairId): seq<Token>
    decreases |s|
  {
    if s == [] then []
    else
      var n := |s| - 1;
      RemoveId(canon, s[..n], id) + (if canon(s[n].pairId) == canon(id) then [] else [s[n]])
  }

  // ---- Subsequences ----

  lemma IdsSnoc(canon: string -> string, s: seq<Token>, t: Token)
    ensures Ids(canon, s + [t]) == Ids(canon, s) + {canon(t.pairId)}
  {
    assert forall u :: u in s + [t] <==> u in s || u == t;
  }

  lemma {:induction false} SubsequenceDropLast<T>(r: seq<T>, s: seq<T>)
    requires Subsequence(r, s) && r != []
    ensures Subsequence(r[..|r| - 1], s)
    decreases |s|, 0
  {
    var m := |s| - 1;
    assert s[..m] + [s[m]] == s;
    if r[|r| - 1] == s[m] {
      SubsequenceSnoc(r[..|r| - 1], s[..m], s[m]);
    } else {
      SubsequenceDropLast(r, s[..m]);
      SubsequenceSnoc(r[..|r| - 1], s[..m], s[m]);
    }
  }

  lemma {:induction false} SubsequenceSnoc<T>(r: seq<T>, s: seq<T>, x: T)
    requires Subsequence(r, s)
    ensures Subsequence(r, s + [x])
    decreases |s|, 1
  {
    assert (s + [x])[..|s|] == s;
    if r != [] && r[|r| - 1] == x {
      SubsequenceDropLast(r, s);
    }
  }

  lemma {:induction false} SubsequenceElements<T>(r: seq<T>, s: seq<T>)
    requires Subsequence(r, s)
    ensures forall x :: x in r ==> x in s
    decreases |s|
  {
    if r != [] {
      var m := |s| - 1;
      assert s == s[..m] + [s[m]];
      if r[|r| - 1] == s[m] {
        SubsequenceElements(r[..|r| - 1], s[..m]);
        assert r == r[..|r| - 1] + [s[m]];
      } else {
        SubsequenceElements(r, s[..m]);
      }
    }
  }

  lemma {:induction false} SubsequenceLength<T>(r: seq<T>, s: seq<T>)
    requires Subsequence(r, s)
    ensures |r| <= |s|
    decreases |s|
  {
    if r != [] {
      if r[|r| - 1] == s[|s| - 1] {
        SubsequenceLength(r[..|r| - 1], s[..|s| - 1]);
      } else {
        SubsequenceLength(r, s[..|s| - 1]);
      }
    }
  }

  /** Deleting entries cannot create a clash of canonical ids. */
  lemma {:induction false} SubsequenceKeepsDistinct(canon: string -> string, r: seq<Token>, s: seq<Token>)
    requires Subsequence(r, s) && DistinctIds(canon, s)
    ensures DistinctIds(canon, r)
    decreases |s|
  {
    if r != [] {
      var m := |s| - 1;
      assert forall i :: 0 <= i < m ==> s[..m][i] == s[i];
      if r[|r| - 1] == s[m] {
        var k := |r| - 1;
        SubsequenceKeepsDistinct(canon, r[..k], s[..m]);
        SubsequenceElements(r[..k], s[..m]);
        forall i | 0 <= i < k
          ensures canon(r[i].pairId) != canon(r[k].pairId)
        {
          assert r[..k][i] == r[i];
          assert r[i] in s[..m];
          var j :| 0 <= j < m && s[..m][j] == r[i];
        }
      } else {
        SubsequenceKeepsDistinct(canon, r, s[..m]);
      }
    }
  }

  // ---- setTokens' de-duplication ----

  /** The de-duplicated list is a subsequence of the input. */
  lemma {:induction false} FirstOccurrencesSubsequence(canon: string -> string, s: seq<Token>)
    ensures Subsequence(FirstOccurrences(canon, s), s)
    decreases |s|
  {
    if s != [] {
      var n := |s| - 1;
      var r := FirstOccurrences(canon, s[..n]);
      FirstOccurrencesSubsequence(canon, s[..n]);
      assert s == s[..n] + [s[n]];
      if canon(s[n].pairId) in Ids(canon, s[..n]) {
        assert FirstOccurrences(canon, s) == r;
        SubsequenceSnoc(r, s[..n], s[n]);
      } else {
        assert FirstOccurrences(canon, s) == r + [s[n]];
        assert (r + [s[n]])[..|r|] == r;
      }
    }
  }

  /** De-duplication loses no canonical id. */
  lemma {:induction false} FirstOccurrencesIds(canon: string -> string, s: seq<Token>)
    ensures Ids(canon, FirstOccurrences(canon, s)) == Ids(canon, s)
    decreases |s|
  {
    if s != [] {
      var n := |s| - 1;
      var r := FirstOccurrences(canon, s[..n]);
      FirstOccurrencesIds(canon, s[..n]);
      assert s == s[..n] + [s[n]];
      IdsSnoc(canon, s[..n], s[n]);
      if canon(s[n].pairId) !in Ids(canon, s[..n]) {
        IdsSnoc(canon, r, s[n]);
      }
    }
  }

  /** The de-duplicated list has pairwise distinct canonical ids. */
  lemma {:induction false} FirstOccurrencesDistinct(canon: string -> string, s: seq<Token>)
    ensures DistinctIds(canon, FirstOccurrences(canon, s))
    decreases |s|
  {
    if s != [] {
      var n := |s| - 1;
      var r := FirstOccurrences(canon, s[..n]);
      FirstOccurrencesDistinct(canon, s[..n]);
      if canon(s[n].pairId) !in Ids(canon, s[..n]) {
        FirstOccurrencesIds(canon, s[..n]);
        forall i | 0 <= i < |r|
          ensures canon(r[i].pairId) != canon(s[n].pairId)
        {
          assert r[i] in r;
        }
      }
    }
  }

  /** Together: the result is a well-formed subsequence of the input with
      the input's canonical ids. */
  lemma FirstOccurrencesSpec(canon: string -> string, s: seq<Token>)
    ensures Subsequence(FirstOccurrences(canon, s), s)
    ensures DistinctIds(canon, FirstOccurrences(canon, s))
    ensures Ids(canon, FirstOccurrences(canon, s)) == Ids(canon, s)
    ensures |FirstOccurrences(canon, s)| <= |s|
  {
    FirstOccurrencesSubsequence(canon, s);
    FirstOccurrencesDistinct(canon, s);
    FirstOccurrencesIds(canon, s);
    SubsequenceLength(FirstOccurrences(canon, s), s);
  }

  /** First occurrence wins: the entry at index `i` is kept when no earlier
      entry has its canonical id. With DistinctIds of the result, it is the
      only entry of the result with that canonical id. */
  lemma {:induction false} FirstOccurrenceKept(canon: string -> string, s: seq<Token>, i: nat)
    requires i < |s| && canon(s[i].pairId) !in Ids(canon, s[..i])
    ensures s[i] in FirstOccurrences(canon, s)
    decreases |s|
  {
    var n := |s| - 1;
    if i < n {
      assert s[..n][..i] == s[..i];
      FirstOccurrenceKept(canon, s[..n], i);
    }
  }

  /** A later duplicate is dropped: the result holds no entry of `s` with
      its canonical id other than the first one. */
  lemma {:induction false} LaterDuplicateDropped(canon: string -> string, s: seq<Token>, i: nat, j: nat)
    requires i < j < |s| && canon(s[i].pairId) == canon(s[j].pairId)
    requires canon(s[i].pairId) !in Ids(canon, s[..i])
    ensures forall t :: t in FirstOccurrences(canon, s) && canon(t.pairId) == canon(s[i].pairId) ==> t == s[i]
  {
    FirstOccurrenceKept(canon, s, i);
    FirstOccurrencesSpec(canon, s);
    var r := FirstOccurrences(canon, s);
    forall t | t in r && canon(t.pairId) == canon(s[i].pairId)
      ensures t == s[i]
    {
      var a :| 0 <= a < |r| && r[a] == t;
      var b :| 0 <= b < |r| && r[b] == s[i];
      if a != b {
        if a < b { assert canon(r[a].pairId) != canon(r[b].pairId); }
        else { assert canon(r[b].pairId) != canon(r[a].pairId); }
      }
    }
  }

  /** On a list that already has distinct canonical ids, de-duplication is
      the identity. */
  lemma {:induction false} FirstOccurrencesOfDistinct(canon: string -> string, s: seq<Token>)
    requires DistinctIds(canon, s)
    ensures FirstOccurrences(canon, s) == s
    decreases |s|
  {
    if s != [] {
      var n := |s| - 1;
      var p := s[..n];
      assert DistinctIds(canon, p) by {
        forall i, j | 0 <= i < j < n
          ensures canon(p[i].pairId) != canon(p[j].pairId)
        {
          assert p[i] == s[i] && p[j] == s[j];
        }
      }
      FirstOccurrencesOfDistinct(canon, p);
      assert canon(s[n].pairId) !in Ids(canon, p) by {
        forall t | t in p
          ensures canon(t.pairId) != canon(s[n].pairId)
        {
          var j :| 0 <= j < n && p[j] == t;
          assert s[j] == t;
        }
      }
      assert FirstOccurrences(canon, s) == p + [s[n]];
      assert s == p + [s[n]];
    }
  }

  /** Appending a token whose canonical id is new appends it to the
      de-duplicated list. */
  lemma FirstOccurrencesSnoc(canon: string -> string, s: seq<Token>, t: Token)
    requires canon(t.pairId) !in Ids(canon, s)
    ensures FirstOccurrences(canon, s + [t]) == FirstOccurrences(canon, s) + [t]
  {
    assert (s + [t])[..|s|] == s;
  }

  lemma HasIdIds(canon: string -> string, s: seq<Token>, id: PairId)
    ensures HasId(canon, s, id) <==> canon(id) in Ids(canon, s)
  {
    if canon(id) in Ids(canon, s) {
      var t :| t in s && canon(t.pairId) == canon(id);
      var i :| 0 <= i < |s| && s[i] == t;
    }
  }

  // ---- removeToken's filter ----

  /** The filter keeps the order: its result is a subsequence. */
  lemma {:induction false} RemoveIdSubsequence(canon: string -> string, s: seq<Token>, id: PairId)
    ensures Subsequence(RemoveId(canon, s, id), s)
    decreases |s|
  {
    if s != [] {
      var n := |s| - 1;
      var r := RemoveId(canon, s[..n], id);
      RemoveIdSubsequence(canon, s[..n], id);
      assert s == s[..n] + [s[n]];
      if canon(s[n].pairId) == canon(id) {
        assert RemoveId(canon, s, id) == r;
        SubsequenceSnoc(r, s[..n], s[n]);
      } else {
        assert RemoveId(canon, s, id) == r + [s[n]];
        assert (r + [s[n]])[..|r|] == r;
      }
    }
  }

  /** The filter keeps exactly the entries whose canonical id differs from
      that of `id`. */
  lemma {:induction false} RemoveIdMembers(canon: string -> string, s: seq<Token>, id: PairId)
    ensures forall t :: t in RemoveId(canon, s, id) <==> t in s && canon(t.pairId) != canon(id)
    decreases |s|
  {
    if s != [] {
      var n := |s| - 1;
      RemoveIdMembers(canon, s[..n], id);
      assert s == s[..n] + [s[n]];
      assert forall t :: t in s <==> t in s[..n] || t == s[n];
    }
  }

  /** Removing an id that is not watched changes nothing. */
  lemma {:induction false} RemoveAbsentId(canon: string -> string, s: seq<Token>, id: PairId)
    requires !HasId(canon, s, id)
    ensures RemoveId(canon, s, id) == s
    decreases |s|
  {
    if s != [] {
      var n := |s| - 1;
      forall i | 0 <= i < n
        ensures canon(s[..n][i].pairId) != canon(id)
      {
        assert s[..n][i] == s[i];
      }
      RemoveAbsentId(canon, s[..n], id);
      assert canon(s[n].pairId) != canon(id);
      assert s == s[..n] + [s[n]];
    }
  }

  /** The filter's result holds no entry with the canonical id of `id`. */
  lemma RemoveIdDropsId(canon: string -> string, s: seq<Token>, id: PairId)
    ensures canon(id) !in Ids(canon, RemoveId(canon, s, id))
  {
    RemoveIdMembers(canon, s, id);
  }

  /** Removing from a well-formed list gives a well-formed list. */
  lemma RemoveIdWellFormed(canon: string -> string, s: seq<Token>, id: PairId)
    requires WellFormed(canon, s)
    ensures WellFormed(canon, RemoveId(canon, s, id))
  {
    RemoveIdSubsequence(canon, s, id);
    SubsequenceKeepsDistinct(canon, RemoveId(canon, s, id), s);
    SubsequenceLength(RemoveId(canon, s, id), s);
  }
}
