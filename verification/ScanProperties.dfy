/** What the backward scan guarantees: exact coverage of a bounded range, and
    exactly when an open-ended scan reports the newest signature it saw. */
module ScanProperties {
  import opened Basics
  import opened Ledger
  import opened BatchScanner

  // ---------------------------------------------------------------- exact coverage

  lemma {:induction false} PageOrderMultiset<T>(xs: seq<T>, limit: nat)
    requires limit >= 1
    ensures multiset(PageOrder(xs, limit)) == multiset(xs)
    decreases |xs|
  {
    if |xs| < limit {
      ReverseMultiset(xs);
    } else {
      ReverseMultiset(xs[..limit]);
      PageOrderMultiset(xs[limit..], limit);
      assert xs == xs[..limit] + xs[limit..];
    }
  }

  function Occurs(b: bool): nat { if b then 1 else 0 }

  /** The signatures of one address's history, newest first. */
  function HistorySignatures(l: Chain, a: Address, lo: nat, hi: nat): seq<Signature>
    requires hi <= |l|
    decreases hi
  {
    if hi <= lo then []
    else if a in l[hi - 1].mentions then [l[hi - 1].signature] + HistorySignatures(l, a, lo, hi - 1)
    else HistorySignatures(l, a, lo, hi - 1)
  }

  lemma {:induction false} HistorySignaturesAgree(l: Chain, a: Address, lo: nat, hi: nat)
    requires hi <= |l|
    ensures SignaturesOf(Statuses(l, Newest(l, a, lo, hi))) == HistorySignatures(l, a, lo, hi)
    decreases hi
  {
    if hi <= lo {
    } else {
      HistorySignaturesAgree(l, a, lo, hi - 1);
      var ps := Newest(l, a, lo, hi - 1);
      assert SignaturesOf(Statuses(l, [hi - 1] + ps)) == [l[hi - 1].signature] + SignaturesOf(Statuses(l, ps));
    }
  }

  /** In one address's history each ledger entry of the range appears once if it
      mentions the address and not at all otherwise. */
  lemma {:induction false} HistoryCount(l: Chain, a: Address, lo: nat, hi: nat, i: nat)
    requires ValidChain(l) && hi <= |l| && i < |l|
    ensures multiset(HistorySignatures(l, a, lo, hi))[l[i].signature] == Occurs(lo <= i < hi && a in l[i].mentions)
    decreases hi
  {
    if hi <= lo {
    } else {
      HistoryCount(l, a, lo, hi - 1, i);
      assert l[i].signature == l[hi - 1].signature <==> i == hi - 1;
    }
  }

  lemma {:induction false} HistoryKnown(l: Chain, a: Address, lo: nat, hi: nat, s: Signature)
    requires hi <= |l| && s in SignaturesOf(Statuses(l, Newest(l, a, lo, hi)))
    ensures exists i :: 0 <= i < hi && l[i].signature == s
  {
    var ps := Newest(l, a, lo, hi);
    var k :| 0 <= k < |ps| && SignaturesOf(Statuses(l, ps))[k] == s;
    assert l[ps[k]].signature == s;
  }

  /** What the RPC lists for an address: the entries that mention it, after a known `t1`
      and before `t2`, of which an unknown one has nothing before it. */
  lemma HistoryIs(l: Chain, a: Address, t1: Option<Signature>, t2: Option<Signature>, i: nat)
    requires ValidChain(l) && i < |l|
    ensures Status(l[i].signature, l[i].slot) in History(l, a, t1, t2)
       <==> && a in l[i].mentions
            && (t1.Some? && Position(l, t1.value).Some? ==> i > Position(l, t1.value).value)
            && (t2.Some? ==> Position(l, t2.value).Some? && i < Position(l, t2.value).value)
  {
    var ps := Newest(l, a, LowerEnd(l, t1), UpperEnd(l, t2));
    NewestComplete(l, a, LowerEnd(l, t1), UpperEnd(l, t2), i);
    if k :| 0 <= k < |ps| && History(l, a, t1, t2)[k] == Status(l[i].signature, l[i].slot) {
      assert ps[k] == i;
    }
    if k :| 0 <= k < |ps| && ps[k] == i {
      assert History(l, a, t1, t2)[k] == Status(l[i].signature, l[i].slot);
    }
  }

  /** A catch-up scan up to a known `t2` hands over each address's entries strictly
      between the bounds, once per address, and nothing else. The two addresses may
      see different ledgers `g` and `s`; growth in between makes no difference. */
  lemma CatchUpExact(g: Chain, s: Chain, t1: Option<Signature>, t2: Signature, limit: nat, i: nat)
    requires limit >= 1 && ValidChain(s) && g <= s && i < |s|
    requires LowerEnd(g, t1) == LowerEnd(s, t1) && Position(g, t2).Some?
    ensures
      var between := LowerEnd(s, t1) <= i < Position(s, t2).GetOr(0);
      multiset(ScanHanded(g, s, t1, Some(t2), limit))[s[i].signature]
      == Occurs(between && Gateway in s[i].mentions) + Occurs(between && GasService in s[i].mentions)
  {
    PositionStable(g, s, t2);
    var lo, hi := LowerEnd(s, t1), Position(s, t2).value;
    NewestStable(g, s, Gateway, lo, hi);
    assert History(g, Gateway, t1, Some(t2)) == History(s, Gateway, t1, Some(t2));
    HistoryCount(s, Gateway, lo, hi, i);
    HistoryCount(s, GasService, lo, hi, i);
    HistorySignaturesAgree(s, Gateway, lo, hi);
    HistorySignaturesAgree(s, GasService, lo, hi);
    PageOrderMultiset(SignaturesOf(History(s, Gateway, t1, Some(t2))), limit);
    PageOrderMultiset(SignaturesOf(History(s, GasService, t1, Some(t2))), limit);
  }

  // ---------------------------------------------------------------- which signature is reported

  /** With a bound given by the caller the scan reports that bound. */
  lemma {:induction false} GivenBoundKept(t2: Signature, hs: seq<Status>)
    ensures NoteAll(NewestSoFar(Some(t2), None), hs) == NewestSoFar(Some(t2), None)
    decreases |hs|
  {
    if hs == [] {
    } else {
      GivenBoundKept(t2, hs[1..]);
    }
  }

  lemma ScanReportsGivenBound(g: Chain, s: Chain, t1: Option<Signature>, t2: Signature, limit: nat)
    requires limit >= 1
    ensures ScanNewest(g, s, t1, Some(t2), limit) == Some(t2)
  {
    GivenBoundKept(t2, Heads(History(g, Gateway, t1, Some(t2)), limit));
    GivenBoundKept(t2, Heads(History(s, GasService, t1, Some(t2)), limit));
  }

  /** Slots never increase along a newest-first history. */
  ghost predicate Descending(xs: seq<Status>) {
    forall j, k :: 0 <= j <= k < |xs| ==> xs[k].slot <= xs[j].slot
  }

  lemma HistoryDescends(l: Chain, a: Address, lo: nat, hi: nat)
    requires ValidChain(l) && hi <= |l|
    ensures Descending(Statuses(l, Newest(l, a, lo, hi)))
  {
    var ps := Newest(l, a, lo, hi);
    forall j, k | 0 <= j <= k < |ps|
      ensures Statuses(l, ps)[k].slot <= Statuses(l, ps)[j].slot
    {
      if j < k {
        NewestDescends(l, a, lo, hi, j, k);
      }
    }
  }

  /** The head of a later page lies at least one full page into the history. */
  lemma {:induction false} HeadsOf(xs: seq<Status>, limit: nat, k: nat) returns (m: nat)
    requires limit >= 1 && k < |Heads(xs, limit)|
    ensures m < |xs| && Heads(xs, limit)[k] == xs[m]
    ensures if k == 0 then m == 0 else m >= limit
    decreases |xs|
  {
    if k == 0 {
      m := 0;
    } else {
      m := HeadsOf(xs[limit..], limit, k - 1);
      m := m + limit;
    }
  }

  /** Pages no newer than the recorded slot change nothing. */
  lemma {:induction false} OlderPagesIgnored(acc: NewestSoFar, hs: seq<Status>)
    requires acc.signature.Some? && acc.slot.Some?
    requires forall k :: 0 <= k < |hs| ==> hs[k].slot <= acc.slot.value
    ensures NoteAll(acc, hs) == acc
    decreases |hs|
  {
    if hs == [] {
    } else {
      OlderPagesIgnored(acc, hs[1..]);
    }
  }

  /** The recorded slot never moves, and the last page above it wins. */
  lemma {:induction false} LastNewerPageWins(acc: NewestSoFar, hs: seq<Status>, w: nat) returns (k: nat)
    requires acc.signature.Some? && acc.slot.Some?
    requires w < |hs| && hs[w].slot > acc.slot.value
    ensures k < |hs| && hs[k].slot > acc.slot.value
    ensures forall j :: k < j < |hs| ==> hs[j].slot <= acc.slot.value
    ensures NoteAll(acc, hs) == NewestSoFar(Some(hs[k].signature), acc.slot)
    decreases |hs|
  {
    var next := Note(acc, hs[0]);
    if j :| 1 <= j < |hs| && hs[j].slot > acc.slot.value {
      k := LastNewerPageWins(next, hs[1..], j - 1);
      k := k + 1;
    } else {
      k := 0;
      OlderPagesIgnored(next, hs[1..]);
    }
  }

  /** On the gateway side the first page decides, since later pages are older. */
  lemma FirstAddressFold(xs: seq<Status>, limit: nat)
    requires limit >= 1 && Descending(xs)
    ensures NoteAll(NewestSoFar(None, None), Heads(xs, limit))
         == if xs == [] then NewestSoFar(None, None) else NewestSoFar(Some(xs[0].signature), Some(xs[0].slot))
  {
    if xs != [] {
      var hs := Heads(xs, limit);
      forall k | 0 <= k < |hs[1..]|
        ensures hs[1..][k].slot <= xs[0].slot
      {
        var m := HeadsOf(xs, limit, k + 1);
      }
      OlderPagesIgnored(NewestSoFar(Some(xs[0].signature), Some(xs[0].slot)), hs[1..]);
    }
  }

  /** How many leading entries are newer in slot than `slot`. */
  function Ahead(xs: seq<Status>, slot: nat): (n: nat)
    ensures n <= |xs|
  {
    if xs == [] || xs[0].slot <= slot then 0 else 1 + Ahead(xs[1..], slot)
  }

  lemma {:induction false} AheadIff(xs: seq<Status>, slot: nat, i: nat)
    requires Descending(xs) && i < |xs|
    ensures i < Ahead(xs, slot) <==> xs[i].slot > slot
  {
    if xs[0].slot <= slot || i == 0 {
    } else {
      AheadIff(xs[1..], slot, i - 1);
    }
  }

  lemma {:induction false} AheadDrop(xs: seq<Status>, slot: nat, k: nat)
    requires Descending(xs) && k <= |xs|
    ensures Ahead(xs[k..], slot) == if Ahead(xs, slot) <= k then 0 else Ahead(xs, slot) - k
  {
    if k == 0 {
      assert xs[0..] == xs;
    } else {
      AheadDrop(xs[1..], slot, k - 1);
      assert xs[1..][k - 1..] == xs[k..];
      if k < |xs| {
        AheadIff(xs, slot, k);
      }
    }
  }

  /** Where the last page that starts among the first `n` entries begins. */
  function LastHead(n: nat, limit: nat): (h: nat)
    requires n > 0 && limit >= 1
    ensures h < n <= h + limit
    ensures h == 0 <==> n <= limit
  {
    if n <= limit then 0 else limit + LastHead(n - limit, limit)
  }

  /** The fold takes one page at a time. */
  lemma HeadsUnfold(acc: NewestSoFar, xs: seq<Status>, limit: nat)
    requires limit >= 1 && acc.Consistent()
    ensures NoteAll(acc, Heads(xs, limit))
         == if xs == [] then acc
            else if |xs| < limit then Note(acc, xs[0])
            else NoteAll(Note(acc, xs[0]), Heads(xs[limit..], limit))
  {
    if xs == [] {
    } else if |xs| < limit {
      assert NoteAll(acc, [xs[0]]) == NoteAll(Note(acc, xs[0]), []);
    } else {
      assert Heads(xs, limit)[1..] == Heads(xs[limit..], limit);
    }
  }

  /** The second address replaces the signature by the head of its last page that is
      still ahead of the recorded slot, and changes nothing when none is. */
  lemma {:induction false} SecondAddressFold(acc: NewestSoFar, xs: seq<Status>, limit: nat)
    requires limit >= 1 && Descending(xs) && acc.signature.Some? && acc.slot.Some?
    ensures
      var n := Ahead(xs, acc.slot.value);
      NoteAll(acc, Heads(xs, limit))
      == if n == 0 then acc else acc.(signature := Some(xs[LastHead(n, limit)].signature))
    decreases |xs|
  {
    hide NoteAll, Heads;
    HeadsUnfold(acc, xs, limit);
    if limit <= |xs| {
      SecondAddressFold(Note(acc, xs[0]), xs[limit..], limit);
      AheadDrop(xs, acc.slot.value, limit);
    }
  }

  /** The position of the newest monitored transaction a scan from `lo` can see. */
  function NewestScanned(l: Chain, lo: nat): Option<nat> {
    var gw, gas := Newest(l, Gateway, lo, |l|), Newest(l, GasService, lo, |l|);
    if gw == [] && gas == [] then None
    else if gas == [] || (gw != [] && gas[0] <= gw[0]) then Some(gw[0])
    else Some(gas[0])
  }

  /** Can be checked on the two histories before the scan: when the gas-service
      address is ahead in slots, at most one of its pages is; otherwise it is not
      ahead at all. */
  predicate AtMostOnePageAhead(l: Chain, lo: nat, limit: nat) {
    var gw, gas := Newest(l, Gateway, lo, |l|), Newest(l, GasService, lo, |l|);
    gw != [] && gas != [] ==>
      if l[gas[0]].slot > l[gw[0]].slot
      then |gas| <= limit || l[gas[limit]].slot <= l[gw[0]].slot
      else gas[0] <= gw[0]
  }

  /** The scanner documents that it returns the chronologically newest signature.
      On a ledger that stands still, it does so exactly under `AtMostOnePageAhead`. */
  lemma NewestReportedIff(l: Chain, t1: Option<Signature>, limit: nat)
    requires ValidChain(l) && limit >= 1
    ensures
      var newest := NewestScanned(l, LowerEnd(l, t1));
      if newest.None? then ScanNewest(l, l, t1, None, limit) == None
      else (ScanNewest(l, l, t1, None, limit) == Some(l[newest.value].signature)
            <==> AtMostOnePageAhead(l, LowerEnd(l, t1), limit))
  {
    var lo := LowerEnd(l, t1);
    var gw, gas := Newest(l, Gateway, lo, |l|), Newest(l, GasService, lo, |l|);
    HistoryDescends(l, Gateway, lo, |l|);
    HistoryDescends(l, GasService, lo, |l|);
    var gs, ss := History(l, Gateway, t1, None), History(l, GasService, t1, None);
    FirstAddressFold(gs, limit);
    if gw == [] {
      FirstAddressFold(ss, limit);
    } else {
      SecondAddressFold(NewestSoFar(Some(gs[0].signature), Some(gs[0].slot)), ss, limit);
      var n := Ahead(ss, gs[0].slot);
      if n > 0 {
        AheadIff(ss, gs[0].slot, 0);
        if limit < |ss| {
          AheadIff(ss, gs[0].slot, limit);
        }
        if LastHead(n, limit) > 0 {
          NewestDescends(l, GasService, lo, |l|, 0, LastHead(n, limit));
        }
      }
    }
  }

  lemma {:induction false} NoteAllOrigin(acc: NewestSoFar, hs: seq<Status>)
    requires acc.Consistent()
    ensures NoteAll(acc, hs).signature == acc.signature
         || exists k :: 0 <= k < |hs| && NoteAll(acc, hs).signature == Some(hs[k].signature)
    decreases |hs|
  {
    if hs == [] {
    } else {
      NoteAllOrigin(Note(acc, hs[0]), hs[1..]);
      if k :| 0 <= k < |hs[1..]| && NoteAll(acc, hs).signature == Some(hs[1..][k].signature) {
        assert hs[k + 1] == hs[1..][k];
      } else {
        assert NoteAll(acc, hs).signature == acc.signature || NoteAll(acc, hs).signature == Some(hs[0].signature);
      }
    }
  }

  lemma HeadWasScanned(l: Chain, a: Address, t1: Option<Signature>, limit: nat, k: nat)
    requires limit >= 1 && k < |Heads(History(l, a, t1, None), limit)|
    ensures exists i :: LowerEnd(l, t1) <= i < |l| && l[i].signature == Heads(History(l, a, t1, None), limit)[k].signature
  {
    var m := HeadsOf(History(l, a, t1, None), limit, k);
    var ps := Newest(l, a, LowerEnd(l, t1), |l|);
    NewestComplete(l, a, LowerEnd(l, t1), |l|, ps[m]);
    assert l[ps[m]].signature == History(l, a, t1, None)[m].signature;
  }

  /** Whatever an open-ended scan reports lies in the scanned range, also when the
      ledger grew from `g` to `s` between the two addresses. */
  lemma ReportedWasScanned(g: Chain, s: Chain, t1: Option<Signature>, limit: nat)
    requires g <= s && LowerEnd(g, t1) == LowerEnd(s, t1) && limit >= 1
    ensures
      var r := ScanNewest(g, s, t1, None, limit);
      r.Some? ==> exists i :: LowerEnd(s, t1) <= i < |s| && s[i].signature == r.value
  {
    var gh, sh := Heads(History(g, Gateway, t1, None), limit), Heads(History(s, GasService, t1, None), limit);
    var first := NoteAll(NewestSoFar(None, None), gh);
    var r := ScanNewest(g, s, t1, None, limit);
    NoteAllOrigin(NewestSoFar(None, None), gh);
    NoteAllOrigin(first, sh);
    if k :| 0 <= k < |sh| && r == Some(sh[k].signature) {
      HeadWasScanned(s, GasService, t1, limit, k);
    } else if k :| 0 <= k < |gh| && r == Some(gh[k].signature) {
      HeadWasScanned(g, Gateway, t1, limit, k);
      var i :| LowerEnd(g, t1) <= i < |g| && g[i].signature == r.value;
      assert s[i] == g[i];
    }
  }

  // ---------------------------------------------------------------- the fold can miss the newest signature

  /** One gateway transaction in slot 1 followed by eleven gas-service ones in slot 2. */
  function BusyGasService(): Chain {
    seq(12, (i: nat) => Entry(i, if i == 0 then 1 else 2, if i == 0 then {Gateway} else {GasService}, true, 5000, []))
  }

  lemma {:induction false} BusyHistories(n: nat)
    requires n <= 12
    ensures Newest(BusyGasService(), Gateway, 0, n) == if n == 0 then [] else [0]
    ensures |Newest(BusyGasService(), GasService, 0, n)| == if n == 0 then 0 else n - 1
    ensures n >= 2 ==> Newest(BusyGasService(), GasService, 0, n)[0] == n - 1
    ensures n >= 2 ==> Newest(BusyGasService(), GasService, 0, n)[n - 2] == 1
  {
    if n == 0 {
    } else {
      BusyHistories(n - 1);
    }
  }

  lemma BusyOverview()
    ensures ValidChain(BusyGasService()) && NewestScanned(BusyGasService(), 0) == Some(11)
    ensures !AtMostOnePageAhead(BusyGasService(), 0, LIMIT)
  {
    hide Newest;
    BusyHistories(12);
  }

  /** With the real page size the scan reports an older signature than the newest it saw. */
  lemma NewestCanBeMissed()
    ensures ValidChain(BusyGasService())
    ensures NewestScanned(BusyGasService(), 0) == Some(11)
    ensures ScanNewest(BusyGasService(), BusyGasService(), None, None, LIMIT) != Some(BusyGasService()[11].signature)
  {
    hide ScanNewest, NewestScanned, AtMostOnePageAhead, ValidChain;
    BusyOverview();
    NewestReportedIff(BusyGasService(), None, LIMIT);
  }
}
