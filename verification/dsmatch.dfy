/** The DS/key matcher: the trusted records whose DS representation equals
    one of a list of DS records. The DS comparison and the set push belong
    to the DNS library and are passed in uninterpreted. */
module DsMatch {
  import opened Dns

  /** The library's DS comparison of a trusted record with a DS record. */
  type DsCompare = (RR, RR) -> bool

  /** Whether the library's set push takes `rr` onto `keys`. The push either
      appends the record or leaves the list alone; which one it does is the
      library's own decision. */
  type PushAccepts = (seq<RR>, RR) -> bool

  function Push(accepts: PushAccepts, keys: seq<RR>, rr: RR): (r: seq<RR>)
    ensures r == keys || r == keys + [rr]
  {
    if accepts(keys, rr) then keys + [rr] else keys
  }

  /** Pushes `xs` one after another, first to last. */
  function PushAll(accepts: PushAccepts, xs: seq<RR>): seq<RR>
  {
    if xs == [] then [] else Push(accepts, PushAll(accepts, xs[..|xs| - 1]), xs[|xs| - 1])
  }

  /** The trusted record `t` once for every DS record it matches, in DS order. */
  function RowMatches(cmp: DsCompare, t: RR, ds: seq<RR>): seq<RR>
  {
    if ds == [] then []
    else RowMatches(cmp, t, ds[..|ds| - 1]) + (if cmp(t, ds[|ds| - 1]) then [t] else [])
  }

  /** One entry per matching (trusted, DS) pair, in the order the matcher
      visits pairs: trusted records outside, DS records inside. */
  function Matches(cmp: DsCompare, trusted: seq<RR>, ds: seq<RR>): seq<RR>
  {
    if trusted == [] then []
    else Matches(cmp, trusted[..|trusted| - 1], ds) + RowMatches(cmp, trusted[|trusted| - 1], ds)
  }

  ghost predicate SomePairMatches(cmp: DsCompare, trusted: seq<RR>, ds: seq<RR>)
  {
    exists i, j :: 0 <= i < |trusted| && 0 <= j < |ds| && cmp(trusted[i], ds[j])
  }

  /** `a` is `b` with some entries left out, order kept. */
  predicate IsSubsequence(a: seq<RR>, b: seq<RR>)
  {
    if b == [] then a == []
    else IsSubsequence(a, b[..|b| - 1])
         || (a != [] && a[|a| - 1] == b[|b| - 1] && IsSubsequence(a[..|a| - 1], b[..|b| - 1]))
  }

  /** Reference result of the matcher: nothing for a missing input or when no
      pair matches, otherwise every match pushed in visiting order. */
  function MatchResult(cmp: DsCompare, accepts: PushAccepts, ds: Option<seq<RR>>, trusted: Option<seq<RR>>): Option<seq<RR>>
  {
    if ds.None? || trusted.None? then None
    else if Matches(cmp, trusted.value, ds.value) == [] then None
    else Some(PushAll(accepts, Matches(cmp, trusted.value, ds.value)))
  }

  /** The matcher: every trusted record against every DS record, pushing the
      trusted record on each match; no list at all when nothing matched. */
  method DsKeyMatch(ds: Option<seq<RR>>, trusted: Option<seq<RR>>, cmp: DsCompare, accepts: PushAccepts)
    returns (keys: Option<seq<RR>>)
    ensures ds.None? || trusted.None? ==> keys.None?
    ensures keys.Some? <==> ds.Some? && trusted.Some? && SomePairMatches(cmp, trusted.value, ds.value)
    ensures keys.Some? ==>
              forall k :: k in keys.value ==> k in trusted.value && exists d :: d in ds.value && cmp(k, d)
    ensures keys.Some? ==> IsSubsequence(keys.value, Matches(cmp, trusted.value, ds.value))
    ensures keys == MatchResult(cmp, accepts, ds, trusted)
  {
    if trusted.None? || ds.None? {
      return None;
    }
    var ts, dss := trusted.value, ds.value;
    var matched := false;
    var acc: seq<RR> := [];
    var i := 0;
    while i < |ts|
      invariant 0 <= i <= |ts|
      invariant acc == PushAll(accepts, Matches(cmp, ts[..i], dss))
      invariant matched <==> Matches(cmp, ts[..i], dss) != []
    {
      acc, matched := PushRow(cmp, accepts, ts[i], dss, Matches(cmp, ts[..i], dss), acc, matched);
      MatchesStep(cmp, ts, dss, i);
      i := i + 1;
    }
    assert ts[..|ts|] == ts;
    MatchesNonEmptyIff(cmp, ts, dss);
    if matched {
      keys := Some(acc);
      PushAllIsSubsequence(accepts, Matches(cmp, ts, dss));
      SubsequenceMembers(acc, Matches(cmp, ts, dss));
      MatchesMembers(cmp, ts, dss);
    } else {
      keys := None;
    }
  }

  /** The inner loop of the matcher: trusted record `t` against every DS
      record, pushing `t` on each match. `before` are the matches pushed so
      far, `acc` what the pushes made of them and `matched` whether there
      were any. */
  method PushRow(cmp: DsCompare, accepts: PushAccepts, t: RR, dss: seq<RR>, ghost before: seq<RR>,
                 acc: seq<RR>, matched: bool)
    returns (acc': seq<RR>, matched': bool)
    requires acc == PushAll(accepts, before)
    requires matched <==> before != []
    ensures acc' == PushAll(accepts, before + RowMatches(cmp, t, dss))
    ensures matched' <==> before + RowMatches(cmp, t, dss) != []
  {
    acc', matched' := acc, matched;
    var j := 0;
    assert dss[..0] == [];
    assert before + RowMatches(cmp, t, dss[..0]) == before;
    while j < |dss|
      invariant 0 <= j <= |dss|
      invariant acc' == PushAll(accepts, before + RowMatches(cmp, t, dss[..j]))
      invariant matched' <==> before + RowMatches(cmp, t, dss[..j]) != []
    {
      RowMatchesStep(cmp, t, dss, j);
      if cmp(t, dss[j]) {
        matched' := true;
        PushAllStep(accepts, before + RowMatches(cmp, t, dss[..j]), t);
        assert before + RowMatches(cmp, t, dss[..j + 1]) == (before + RowMatches(cmp, t, dss[..j])) + [t];
        acc' := Push(accepts, acc', t);
      } else {
        assert RowMatches(cmp, t, dss[..j + 1]) == RowMatches(cmp, t, dss[..j]);
      }
      j := j + 1;
    }
    assert dss[..|dss|] == dss;
  }

  lemma PushAllStep(accepts: PushAccepts, xs: seq<RR>, x: RR)
    ensures PushAll(accepts, xs + [x]) == Push(accepts, PushAll(accepts, xs), x)
  {
    assert (xs + [x])[..|xs|] == xs;
  }

  lemma RowMatchesStep(cmp: DsCompare, t: RR, ds: seq<RR>, j: nat)
    requires j < |ds|
    ensures RowMatches(cmp, t, ds[..j + 1]) == RowMatches(cmp, t, ds[..j]) + (if cmp(t, ds[j]) then [t] else [])
  {
    assert ds[..j + 1][..j] == ds[..j];
  }

  lemma MatchesStep(cmp: DsCompare, trusted: seq<RR>, ds: seq<RR>, i: nat)
    requires i < |trusted|
    ensures Matches(cmp, trusted[..i + 1], ds) == Matches(cmp, trusted[..i], ds) + RowMatches(cmp, trusted[i], ds)
  {
    assert trusted[..i + 1][..i] == trusted[..i];
  }

  /** A trusted record appears in its row exactly when it matches some DS record. */
  lemma {:induction false} RowMatchesMembers(cmp: DsCompare, t: RR, ds: seq<RR>)
    ensures forall x :: x in RowMatches(cmp, t, ds) <==> x == t && exists j :: 0 <= j < |ds| && cmp(t, ds[j])
  {
    if ds != [] {
      var init := ds[..|ds| - 1];
      RowMatchesMembers(cmp, t, init);
      forall j | 0 <= j < |init| ensures init[j] == ds[j] { }
    }
  }

  lemma RowNonEmptyIff(cmp: DsCompare, t: RR, ds: seq<RR>)
    ensures RowMatches(cmp, t, ds) != [] <==> exists j :: 0 <= j < |ds| && cmp(t, ds[j])
  {
    RowMatchesMembers(cmp, t, ds);
    if RowMatches(cmp, t, ds) != [] {
      assert RowMatches(cmp, t, ds)[0] in RowMatches(cmp, t, ds);
    } else {
      assert t !in RowMatches(cmp, t, ds);
    }
  }

  lemma SomePairSplit(cmp: DsCompare, trusted: seq<RR>, ds: seq<RR>)
    requires trusted != []
    ensures SomePairMatches(cmp, trusted, ds) <==>
              SomePairMatches(cmp, trusted[..|trusted| - 1], ds)
              || exists j :: 0 <= j < |ds| && cmp(trusted[|trusted| - 1], ds[j])
  {
    var init := trusted[..|trusted| - 1];
    if SomePairMatches(cmp, trusted, ds) {
      var i, j :| 0 <= i < |trusted| && 0 <= j < |ds| && cmp(trusted[i], ds[j]);
      if i < |init| {
        assert cmp(init[i], ds[j]);
      }
    }
    if SomePairMatches(cmp, init, ds) {
      var i, j :| 0 <= i < |init| && 0 <= j < |ds| && cmp(init[i], ds[j]);
      assert cmp(trusted[i], ds[j]);
    }
  }

  /** Matching finds something exactly when some pair satisfies the DS comparison. */
  lemma {:induction false} MatchesNonEmptyIff(cmp: DsCompare, trusted: seq<RR>, ds: seq<RR>)
    ensures Matches(cmp, trusted, ds) != [] <==> SomePairMatches(cmp, trusted, ds)
  {
    if trusted != [] {
      MatchesNonEmptyIff(cmp, trusted[..|trusted| - 1], ds);
      RowNonEmptyIff(cmp, trusted[|trusted| - 1], ds);
      SomePairSplit(cmp, trusted, ds);
    }
  }

  /** Every entry of the match list is a trusted record that matches some DS
      record, and every such record occurs in it. */
  lemma {:induction false} MatchesMembers(cmp: DsCompare, trusted: seq<RR>, ds: seq<RR>)
    ensures forall x :: x in Matches(cmp, trusted, ds) <==> x in trusted && exists d :: d in ds && cmp(x, d)
  {
    if trusted != [] {
      var init := trusted[..|trusted| - 1];
      var last := trusted[|trusted| - 1];
      MatchesMembers(cmp, init, ds);
      RowMatchesMembers(cmp, last, ds);
      assert trusted == init + [last];
      forall x | x in trusted && (exists d :: d in ds && cmp(x, d))
        ensures x in Matches(cmp, trusted, ds)
      {
        var d :| d in ds && cmp(x, d);
        var j :| 0 <= j < |ds| && ds[j] == d;
        if x !in init {
          assert x == last;
          assert x in RowMatches(cmp, last, ds);
        }
      }
    }
  }

  /** The set push keeps the order of the matches and invents nothing. */
  lemma {:induction false} PushAllIsSubsequence(accepts: PushAccepts, xs: seq<RR>)
    ensures IsSubsequence(PushAll(accepts, xs), xs)
  {
    if xs != [] {
      var init := xs[..|xs| - 1];
      PushAllIsSubsequence(accepts, init);
      var prev := PushAll(accepts, init);
      if accepts(prev, xs[|xs| - 1]) {
        assert (prev + [xs[|xs| - 1]])[..|prev|] == prev;
      }
    }
  }

  lemma {:induction false} SubsequenceMembers(a: seq<RR>, b: seq<RR>)
    requires IsSubsequence(a, b)
    ensures forall x :: x in a ==> x in b
  {
    if b != [] {
      var binit := b[..|b| - 1];
      if IsSubsequence(a, binit) {
        SubsequenceMembers(a, binit);
      } else {
        SubsequenceMembers(a[..|a| - 1], binit);
        assert a == a[..|a| - 1] + [a[|a| - 1]];
        assert b == binit + [b[|b| - 1]];
      }
    }
  }

  /** A push that refuses nothing keeps one entry per match, duplicates included. */
  lemma {:induction false} AcceptingPushKeepsEveryMatch(accepts: PushAccepts, xs: seq<RR>)
    requires forall keys, rr :: accepts(keys, rr)
    ensures PushAll(accepts, xs) == xs
  {
    if xs != [] {
      AcceptingPushKeepsEveryMatch(accepts, xs[..|xs| - 1]);
      assert xs[..|xs| - 1] + [xs[|xs| - 1]] == xs;
    }
  }

  /** When exactly one pair matches, the result holds exactly that trusted
      record (the first push onto an empty list is taken). */
  lemma SingleMatchYieldsThatRecord(cmp: DsCompare, accepts: PushAccepts, ds: seq<RR>, trusted: seq<RR>, t: RR)
    requires Matches(cmp, trusted, ds) == [t]
    requires accepts([], t)
    ensures MatchResult(cmp, accepts, Some(ds), Some(trusted)) == Some([t])
  {
    assert [t][..0] == [];
    assert PushAll(accepts, [t]) == Push(accepts, PushAll(accepts, []), t);
  }
}
