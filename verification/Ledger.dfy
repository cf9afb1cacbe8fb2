/** The chain as the relayer sees it through RPC: a growing list of
    transactions, and the paged history of one address. A transaction is
    identified by its position in the ledger. */
module Ledger {
  import opened Basics

  /** A 64-byte signature, as a number. */
  type Signature = nat

  datatype Address = Gateway | GasService | Pda(id: nat)

  datatype GatewayKind =
    | InitializePayloadVerificationSession
    | VerifySignature
    | InitializeMessagePayload
    | WriteMessagePayload
    | CommitMessagePayload
    | CloseMessagePayload
    | OtherGatewayKind

  /** An instruction after decoding. `None` accounts stand for an account list
      too short to hold the account the relayer looks up. */
  datatype Ix =
    | ApproveMessage(setSize: nat, session: Option<Address>)
    | RotateSigners(session: Option<Address>)
    | GatewayIx(kind: GatewayKind)
    | ExecutableIx(payload: Option<Address>)
    | ForeignIx

  datatype Entry = Entry(
    signature: Signature,
    slot: nat,
    mentions: set<Address>,
    successful: bool,
    fee: u64,
    ixs: seq<Ix>)

  type Chain = seq<Entry>

  ghost predicate ValidChain(l: Chain) {
    && (forall i, j :: 0 <= i < j < |l| ==> l[i].signature != l[j].signature)
    && (forall i, j :: 0 <= i <= j < |l| ==> l[i].slot <= l[j].slot)
  }

  /** Position of a signature among the first `n` entries. */
  function IndexOf(l: Chain, s: Signature, n: nat): (r: Option<nat>)
    requires n <= |l|
    ensures r.Some? ==> r.value < n && l[r.value].signature == s
    ensures r.None? ==> forall i :: 0 <= i < n ==> l[i].signature != s
  {
    if n == 0 then None
    else if l[n - 1].signature == s then Some(n - 1)
    else IndexOf(l, s, n - 1)
  }

  function Position(l: Chain, s: Signature): Option<nat> {
    IndexOf(l, s, |l|)
  }

  /** Exclusive upper end of a history range: `before`, or the top of the ledger. */
  function UpperEnd(l: Chain, before: Option<Signature>): (hi: nat)
    ensures hi <= |l|
  {
    match before
    case None => |l|
    case Some(s) => match Position(l, s) case None => 0 case Some(i) => i
  }

  /** Inclusive lower end of a history range: just after `until`, or the very beginning. */
  function LowerEnd(l: Chain, until: Option<Signature>): nat {
    match until
    case None => 0
    case Some(s) => match Position(l, s) case None => 0 case Some(i) => i + 1
  }

  /** Every element of `ps` is a position below `n`. */
  predicate Below(ps: seq<nat>, n: nat) {
    forall k :: 0 <= k < |ps| ==> ps[k] < n
  }

  /** Positions in [lo, hi) that mention `a`, newest first. */
  function Newest(l: Chain, a: Address, lo: nat, hi: nat): (r: seq<nat>)
    requires hi <= |l|
    ensures Below(r, hi)
    decreases hi
  {
    if hi <= lo then []
    else if a in l[hi - 1].mentions then [hi - 1] + Newest(l, a, lo, hi - 1)
    else Newest(l, a, lo, hi - 1)
  }

  lemma {:induction false} NewestDescends(l: Chain, a: Address, lo: nat, hi: nat, j: nat, k: nat)
    requires hi <= |l|
    requires j < k < |Newest(l, a, lo, hi)|
    ensures Newest(l, a, lo, hi)[k] < Newest(l, a, lo, hi)[j]
    decreases hi
  {
    if a in l[hi - 1].mentions {
      if j > 0 {
        NewestDescends(l, a, lo, hi - 1, j - 1, k - 1);
      }
    } else {
      NewestDescends(l, a, lo, hi - 1, j, k);
    }
  }

  lemma {:induction false} NewestComplete(l: Chain, a: Address, lo: nat, hi: nat, i: nat)
    requires hi <= |l|
    ensures i in Newest(l, a, lo, hi) <==> lo <= i < hi && a in l[i].mentions
    decreases hi
  {
    if hi <= lo {
    } else {
      NewestComplete(l, a, lo, hi - 1, i);
      var rest := Newest(l, a, lo, hi - 1);
      assert i in [hi - 1] + rest <==> i == hi - 1 || i in rest;
    }
  }

  function Take<T>(s: seq<T>, n: nat): seq<T> {
    if n <= |s| then s[..n] else s
  }

  /** Resuming below the last entry of a page yields exactly the rest of the history. */
  lemma {:induction false} ResumeBelow(l: Chain, a: Address, lo: nat, hi: nat, k: nat)
    requires hi <= |l|
    requires 0 < k <= |Newest(l, a, lo, hi)|
    ensures Newest(l, a, lo, Newest(l, a, lo, hi)[k - 1]) == Newest(l, a, lo, hi)[k..]
    decreases hi
  {
    var all := Newest(l, a, lo, hi);
    var rest := Newest(l, a, lo, hi - 1);
    if a in l[hi - 1].mentions {
      assert all == [hi - 1] + rest;
      if k == 1 {
        assert all[1..] == rest;
      } else {
        ResumeBelow(l, a, lo, hi - 1, k - 1);
        assert all[k - 1] == rest[k - 2];
        assert all[k..] == rest[k - 1..];
      }
    } else {
      ResumeBelow(l, a, lo, hi - 1, k);
    }
  }

  /** Ledger growth does not disturb the history below a fixed position. */
  lemma {:induction false} NewestStable(l: Chain, l': Chain, a: Address, lo: nat, hi: nat)
    requires l <= l' && hi <= |l|
    ensures Newest(l', a, lo, hi) == Newest(l, a, lo, hi)
    decreases hi
  {
    if hi <= lo {
    } else {
      NewestStable(l, l', a, lo, hi - 1);
    }
  }

  lemma PositionOfEntry(l: Chain, i: nat)
    requires ValidChain(l) && i < |l|
    ensures Position(l, l[i].signature) == Some(i)
  {
  }

  /** A known signature keeps its position while the ledger grows. */
  lemma PositionStable(l: Chain, l': Chain, s: Signature)
    requires l <= l' && ValidChain(l') && Position(l, s).Some?
    ensures Position(l', s) == Position(l, s)
  {
    PositionOfEntry(l', Position(l, s).value);
  }
}
