/**
 The last step of the random beacon: checking the openings against the commitments, blaming the
 parties whose opening does not match, and mixing the openings.
 */
module BeaconCheck {
  import opened SimpleStore

  type Bytes32 = s: seq<bv8> | |s| == 32 witness seq(32, _ => 0)

  function Xor(a: Bytes32, b: Bytes32): Bytes32 {
    seq(32, i requires 0 <= i < 32 => a[i] ^ b[i])
  }

  function Zero(): Bytes32 {
    seq(32, _ => 0)
  }

  /** The bitwise sum of a sequence of strings. */
  function XorAll(vs: seq<Bytes32>): Bytes32 {
    if vs == [] then Zero() else Xor(XorAll(vs[..|vs| - 1]), vs[|vs| - 1])
  }

  lemma XorLaws(a: Bytes32, b: Bytes32, c: Bytes32)
    ensures Xor(Xor(a, b), c) == Xor(a, Xor(b, c))
    ensures Xor(a, b) == Xor(b, a)
    ensures Xor(a, Zero()) == a
  {
    assert forall i :: 0 <= i < 32 ==> a[i] ^ b[i] == b[i] ^ a[i];
    assert forall i :: 0 <= i < 32 ==> (a[i] ^ b[i]) ^ c[i] == a[i] ^ (b[i] ^ c[i]);
    assert forall i :: 0 <= i < 32 ==> a[i] ^ 0 == a[i];
  }

  /** Where a string stands in the sequence does not matter. */
  lemma {:induction false} XorAllInsert(a: seq<Bytes32>, x: Bytes32, b: seq<Bytes32>)
    ensures XorAll(a + [x] + b) == Xor(x, XorAll(a + b))
  {
    if b == [] {
      assert a + [x] + b == a + [x] && (a + [x])[..|a|] == a && a + b == a;
      XorLaws(XorAll(a), x, x);
    } else {
      var init, last := b[..|b| - 1], b[|b| - 1];
      XorAllInsert(a, x, init);
      assert (a + [x] + b)[..|a + [x] + b| - 1] == a + [x] + init;
      assert (a + b)[..|a + b| - 1] == a + init;
      XorLaws(x, XorAll(a + init), last);
    }
  }

  // ----- The sum, bit by bit

  /** One bit each, from the least significant one. */
  const MASKS: seq<bv8> := [1, 2, 4, 8, 16, 32, 64, 128]

  predicate Bit(b: bv8, j: nat)
    requires j < 8
  {
    b & MASKS[j] != 0
  }

  lemma MaskedXor(a: bv8, b: bv8, m: bv8)
    requires m == 1 || m == 2 || m == 4 || m == 8 || m == 16 || m == 32 || m == 64 || m == 128
    ensures (a ^ b) & m != 0 <==> (a & m != 0) != (b & m != 0)
  {
  }

  lemma BitOfXor(a: bv8, b: bv8, j: nat)
    requires j < 8
    ensures Bit(a ^ b, j) <==> Bit(a, j) != Bit(b, j)
  {
    MaskedXor(a, b, MASKS[j]);
  }

  lemma BitsDetermine(a: bv8, b: bv8)
    requires forall j :: 0 <= j < 8 ==> (Bit(a, j) <==> Bit(b, j))
    ensures a == b
  {
    assert Bit(a, 0) <==> Bit(b, 0);
    assert Bit(a, 1) <==> Bit(b, 1);
    assert Bit(a, 2) <==> Bit(b, 2);
    assert Bit(a, 3) <==> Bit(b, 3);
    assert Bit(a, 4) <==> Bit(b, 4);
    assert Bit(a, 5) <==> Bit(b, 5);
    assert Bit(a, 6) <==> Bit(b, 6);
    assert Bit(a, 7) <==> Bit(b, 7);
  }

  /** How many of the strings have bit `j` of byte `i` set. */
  function Ones(vs: seq<Bytes32>, i: nat, j: nat): nat
    requires i < 32 && j < 8
  {
    if vs == [] then 0
    else Ones(vs[..|vs| - 1], i, j) + if Bit(vs[|vs| - 1][i], j) then 1 else 0
  }

  /** A bit of the sum is set if and only if an odd number of the strings have it set. */
  ghost predicate IsSum(sum: Bytes32, vs: seq<Bytes32>) {
    forall i, j :: 0 <= i < 32 && 0 <= j < 8 ==> (Bit(sum[i], j) <==> Ones(vs, i, j) % 2 == 1)
  }

  lemma NoBitOfZero(j: nat)
    requires j < 8
    ensures !Bit(0, j)
  {
  }

  /** One more byte, counted and added. */
  lemma OneMore(a: bv8, b: bv8, ones: nat, j: nat)
    requires j < 8 && (Bit(a, j) <==> ones % 2 == 1)
    ensures Bit(a ^ b, j) <==> (ones + if Bit(b, j) then 1 else 0) % 2 == 1
  {
    BitOfXor(a, b, j);
  }

  lemma XorAllAt(vs: seq<Bytes32>, i: nat)
    requires vs != [] && i < 32
    ensures XorAll(vs)[i] == XorAll(vs[..|vs| - 1])[i] ^ vs[|vs| - 1][i]
  {
  }

  lemma {:induction false} BitOfXorAll(vs: seq<Bytes32>, i: nat, j: nat)
    requires i < 32 && j < 8
    ensures Bit(XorAll(vs)[i], j) <==> Ones(vs, i, j) % 2 == 1
  {
    if vs == [] {
      NoBitOfZero(j);
    } else {
      var init, last := vs[..|vs| - 1], vs[|vs| - 1];
      BitOfXorAll(init, i, j);
      XorAllAt(vs, i);
      OneMore(XorAll(init)[i], last[i], Ones(init, i, j), j);
    }
  }

  lemma XorAllIsSum(vs: seq<Bytes32>)
    ensures IsSum(XorAll(vs), vs)
  {
    forall i, j | 0 <= i < 32 && 0 <= j < 8 ensures Bit(XorAll(vs)[i], j) <==> Ones(vs, i, j) % 2 == 1 {
      BitOfXorAll(vs, i, j);
    }
  }

  lemma SumIsXorAll(sum: Bytes32, vs: seq<Bytes32>)
    requires IsSum(sum, vs)
    ensures sum == XorAll(vs)
  {
    XorAllIsSum(vs);
    forall i | 0 <= i < 32 ensures sum[i] == XorAll(vs)[i] {
      BitsDetermine(sum[i], XorAll(vs)[i]);
    }
  }

  lemma XorTwice(a: Bytes32, b: Bytes32)
    ensures Xor(Xor(a, b), b) == a
  {
    assert forall i :: 0 <= i < 32 ==> (a[i] ^ b[i]) ^ b[i] == a[i];
  }

  /** Replacing one string. */
  lemma XorAllReplace(vs: seq<Bytes32>, s: nat, x: Bytes32)
    requires s < |vs|
    ensures XorAll(vs[s := x]) == Xor(x, XorAll(vs[..s] + vs[s + 1..]))
  {
    XorAllInsert(vs[..s], x, vs[s + 1..]);
    assert vs[s := x] == vs[..s] + [x] + vs[s + 1..];
  }

  /** The sum and all strings but one determine that one. */
  lemma SumDetermines(sum: Bytes32, vs: seq<Bytes32>, s: nat, x: Bytes32)
    requires s < |vs| && IsSum(sum, vs) && IsSum(sum, vs[s := x])
    ensures x == vs[s]
  {
    var rest := XorAll(vs[..s] + vs[s + 1..]);
    SumIsXorAll(sum, vs);
    SumIsXorAll(sum, vs[s := x]);
    XorAllReplace(vs, s, x);
    XorAllReplace(vs, s, vs[s]);
    assert vs[s := vs[s]] == vs;
    XorTwice(x, rest);
    XorTwice(vs[s], rest);
  }

  /** The same strings, but perhaps for string `s`. */
  ghost predicate DifferAt(vs: seq<Bytes32>, ws: seq<Bytes32>, s: nat) {
    |ws| == |vs| && forall t :: 0 <= t < |vs| && t != s ==> ws[t] == vs[t]
  }

  /** String `s` counts: any other string in its place makes another sum. */
  ghost predicate Counts(sum: Bytes32, vs: seq<Bytes32>, s: nat)
    requires s < |vs|
  {
    forall ws :: IsSum(sum, ws) && DifferAt(vs, ws, s) ==> ws == vs
  }

  lemma EveryStringCounts(sum: Bytes32, vs: seq<Bytes32>)
    requires IsSum(sum, vs)
    ensures forall s :: 0 <= s < |vs| ==> Counts(sum, vs, s)
  {
    forall s, ws | 0 <= s < |vs| && IsSum(sum, ws) && DifferAt(vs, ws, s) ensures ws == vs {
      assert ws == vs[s := ws[s]];
      SumDetermines(sum, vs, s, ws[s]);
    }
  }

  /** Whatever the other strings are, each string can bring about any sum. */
  lemma AnySumIsOpen(sum: Bytes32, vs: seq<Bytes32>, s: nat) returns (x: Bytes32)
    requires s < |vs|
    ensures IsSum(sum, vs[s := x])
  {
    var rest := XorAll(vs[..s] + vs[s + 1..]);
    x := Xor(sum, rest);
    XorAllReplace(vs, s, x);
    XorTwice(sum, rest);
    XorAllIsSum(vs[s := x]);
  }

  // ----- Checking the openings

  datatype Blame = Blame(guiltyParty: nat, commitmentMsg: nat, decommitmentMsg: nat)

  datatype Verdict = Randomness(output: Bytes32) | PartiesCheated(guilty: seq<Blame>)

  ghost predicate SameRound<C>(commitments: RoundMsgs<C>, openings: RoundMsgs<Bytes32>) {
    && commitments.i == openings.i <= |commitments.messages|
    && |commitments.messages| == |commitments.ids| == |openings.messages| == |openings.ids|
  }

  predicate Matches<C(==)>(sha: Bytes32 -> C, commitments: RoundMsgs<C>, openings: RoundMsgs<Bytes32>, k: nat)
    requires k < |commitments.messages| && k < |openings.messages|
  {
    commitments.messages[k] == sha(openings.messages[k])
  }

  /** The blame that slot `k` would earn: its true sender, and the ids of its two messages. */
  ghost function BlameFor<C>(commitments: RoundMsgs<C>, openings: RoundMsgs<Bytes32>, k: nat): Blame
    requires SameRound(commitments, openings) && k < |commitments.messages|
  {
    Blame(if k < commitments.i then k else k + 1, commitments.ids[k], openings.ids[k])
  }

  /** Every listed blame is for a mismatching slot below `k`, every such slot is listed, in ascending
      order of party. */
  ghost predicate BlamesExactly<C>(
    sha: Bytes32 -> C, commitments: RoundMsgs<C>, openings: RoundMsgs<Bytes32>, k: nat, guilty: seq<Blame>)
    requires SameRound(commitments, openings) && k <= |commitments.messages|
  {
    && (forall b :: b in guilty ==>
         exists j :: 0 <= j < k && !Matches(sha, commitments, openings, j) && b == BlameFor(commitments, openings, j))
    && (forall j :: 0 <= j < k && !Matches(sha, commitments, openings, j) ==>
         BlameFor(commitments, openings, j) in guilty)
    && (forall x, y :: 0 <= x < y < |guilty| ==> guilty[x].guiltyParty < guilty[y].guiltyParty)
  }

  /** The local string mixed with the first `k` openings. */
  ghost function Mixed(local: Bytes32, openings: RoundMsgs<Bytes32>, k: nat): Bytes32
    requires k <= |openings.messages|
  {
    if k == 0 then local else Xor(Mixed(local, openings, k - 1), openings.messages[k - 1])
  }

  /** Mixing in the order of the loop is summing over all parties, the local one included. */
  lemma {:induction false} MixedIsSum(local: Bytes32, openings: RoundMsgs<Bytes32>, k: nat)
    requires k <= |openings.messages|
    ensures Mixed(local, openings, k) == Xor(local, XorAll(openings.messages[..k]))
  {
    if k == 0 {
      XorLaws(local, local, local);
    } else {
      MixedIsSum(local, openings, k - 1);
      assert openings.messages[..k][..k - 1] == openings.messages[..k - 1];
      XorLaws(local, XorAll(openings.messages[..k - 1]), openings.messages[k - 1]);
    }
  }

  lemma MixedAllParties(local: Bytes32, openings: RoundMsgs<Bytes32>)
    requires openings.i <= |openings.messages|
    ensures Mixed(local, openings, |openings.messages|) == XorAll(IncludingMe(openings, local))
  {
    MixedIsSum(local, openings, |openings.messages|);
    assert openings.messages[..|openings.messages|] == openings.messages;
    XorAllInsert(openings.messages[..openings.i], local, openings.messages[openings.i..]);
    assert openings.messages[..openings.i] + openings.messages[openings.i..] == openings.messages;
  }

  /** The verdict is right: the blame list is exactly the mismatching parties, and randomness comes out
      if and only if there is none, as the sum of everybody's string. */
  ghost predicate RightVerdict<C>(
    sha: Bytes32 -> C, local: Bytes32, commitments: RoundMsgs<C>, openings: RoundMsgs<Bytes32>, verdict: Verdict)
    requires SameRound(commitments, openings)
  {
    match verdict
    case PartiesCheated(guilty) =>
      guilty != [] && BlamesExactly(sha, commitments, openings, |commitments.messages|, guilty)
    case Randomness(output) =>
      && (forall k :: 0 <= k < |commitments.messages| ==> Matches(sha, commitments, openings, k))
      && IsSum(output, IncludingMe(openings, local))
  }

  lemma {:induction false} BlamesExist<C>(
    sha: Bytes32 -> C, commitments: RoundMsgs<C>, openings: RoundMsgs<Bytes32>, k: nat) returns (guilty: seq<Blame>)
    requires SameRound(commitments, openings) && k <= |commitments.messages|
    ensures BlamesExactly(sha, commitments, openings, k, guilty)
    ensures forall b :: b in guilty ==> b.guiltyParty < if k <= commitments.i then k else k + 1
  {
    guilty := [];
    if k > 0 {
      guilty := BlamesExist(sha, commitments, openings, k - 1);
      if !Matches(sha, commitments, openings, k - 1) {
        guilty := guilty + [BlameFor(commitments, openings, k - 1)];
      }
    }
  }

  /** There is always a right verdict. */
  lemma VerdictExists<C>(
    sha: Bytes32 -> C, local: Bytes32, commitments: RoundMsgs<C>, openings: RoundMsgs<Bytes32>)
    returns (verdict: Verdict)
    requires SameRound(commitments, openings)
    ensures RightVerdict(sha, local, commitments, openings, verdict)
  {
    var guilty := BlamesExist(sha, commitments, openings, |commitments.messages|);
    XorAllIsSum(IncludingMe(openings, local));
    verdict := if guilty != [] then PartiesCheated(guilty) else Randomness(XorAll(IncludingMe(openings, local)));
  }

  method XorInto(output: array<bv8>, r: Bytes32)
    requires output.Length == 32
    modifies output
    ensures output[..] == Xor(old(output[..]), r)
    ensures forall i, j :: 0 <= i < 32 && 0 <= j < 8 ==>
      (Bit(output[i], j) <==> Bit(old(output[i]), j) != Bit(r[i], j))
  {
    ghost var before := output[..];
    for i := 0 to 32
      invariant forall j :: 0 <= j < i ==> output[j] == before[j] ^ r[j]
      invariant forall j :: i <= j < 32 ==> output[j] == before[j]
    {
      output[i] := output[i] ^ r[i];
    }
    forall i, j | 0 <= i < 32 && 0 <= j < 8 ensures Bit(output[i], j) <==> Bit(before[i], j) != Bit(r[i], j) {
      BitOfXor(before[i], r[i], j);
    }
  }

  method Verify<C(==)>(sha: Bytes32 -> C, local: Bytes32, commitments: RoundMsgs<C>, openings: RoundMsgs<Bytes32>)
    returns (verdict: Verdict)
    requires SameRound(commitments, openings)
    ensures RightVerdict(sha, local, commitments, openings, verdict)
  {
    var guilty: seq<Blame> := [];
    var output := new bv8[32](i requires 0 <= i < 32 => local[i]);
    assert output[..] == local;
    var pairs := (Indexed(commitments), Indexed(openings));
    for k := 0 to |commitments.messages|
      invariant BlamesExactly(sha, commitments, openings, k, guilty)
      invariant forall b :: b in guilty ==> b.guiltyParty < if k <= commitments.i then k else k + 1
      invariant guilty == [] ==> output[..] == Mixed(local, openings, k)
    {
      var (party, commitmentId, commitment) := pairs.0[k];
      var (_, decommitmentId, opening) := pairs.1[k];
      assert Blame(party, commitmentId, decommitmentId) == BlameFor(commitments, openings, k);
      assert Matches(sha, commitments, openings, k) <==> commitment == sha(opening);
      if commitment != sha(opening) {
        guilty := guilty + [Blame(party, commitmentId, decommitmentId)];
      } else {
        XorInto(output, opening);
      }
    }
    if guilty != [] {
      verdict := PartiesCheated(guilty);
    } else {
      MixedAllParties(local, openings);
      XorAllIsSum(IncludingMe(openings, local));
      verdict := Randomness(output[..]);
    }
  }
}
