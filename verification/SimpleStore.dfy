/**
 `RoundInput`: one slot per other party, and the views of its output `RoundMsgs`.
 */
module SimpleStore {
  import opened Messages
  import opened RoundStore

  datatype InputFields<M> = InputFields(
    i: u16,
    n: u16,
    ids: seq<nat>,
    messages: seq<Option<M>>,
    left: u16,
    expected: MessageType)

  function Vacant<M>(slots: seq<Option<M>>): nat {
    if slots == [] then 0 else Vacant(slots[1..]) + if slots[0].None? then 1 else 0
  }

  ghost predicate WellFormed<M>(s: InputFields<M>) {
    && 2 <= s.n && s.i < s.n
    && |s.ids| == |s.messages| == s.n - 1
    && s.left == Vacant(s.messages)
  }

  /** The store. `left` always counts the vacant slots, so decrementing it never underflows. */
  type RoundInput<M> = s: InputFields<M> | WellFormed(s)
    ghost witness InputFields(0, 2, [0], [None], 1, P2P)

  datatype InputError =
    | AttemptToOverwriteReceivedMsg(firstId: nat, secondId: nat, sender: u16)
    | SenderIndexOutOfRange(msgId: nat, sender: u16, n: u16)
    | MismatchedMessageType(msgId: nat, expected: MessageType, actual: MessageType)

  /** Received messages in ascending order of sender, the local party left out. */
  datatype RoundMsgs<M> = RoundMsgs(i: u16, ids: seq<nat>, messages: seq<M>)

  lemma {:induction false} VacantUpdate<M>(slots: seq<Option<M>>, k: nat, m: M)
    requires k < |slots| && slots[k].None?
    ensures Vacant(slots) == Vacant(slots[k := Some(m)]) + 1
  {
    if k > 0 {
      VacantUpdate(slots[1..], k - 1, m);
      assert slots[k := Some(m)][1..] == slots[1..][k - 1 := Some(m)];
    } else {
      assert slots[0 := Some(m)][1..] == slots[1..];
    }
  }

  lemma {:induction false} VacantBounds<M>(slots: seq<Option<M>>)
    ensures Vacant(slots) <= |slots|
    ensures Vacant(slots) == 0 <==> forall k :: 0 <= k < |slots| ==> slots[k].Some?
    ensures (forall k :: 0 <= k < |slots| ==> slots[k].None?) ==> Vacant(slots) == |slots|
  {
    if slots != [] {
      VacantBounds(slots[1..]);
      assert forall k :: 1 <= k < |slots| ==> slots[k] == slots[1..][k - 1];
    }
  }

  /** Position of another party's slot: the local party has none. */
  function Slot(i: u16, sender: u16): nat
    requires sender != i
  {
    if sender < i then sender else sender - 1
  }

  /** A plain broadcast round takes reliable broadcasts too, not the other way around. */
  predicate Accepts(expected: MessageType, actual: MessageType) {
    match expected
    case P2P => actual.P2P?
    case Broadcast(reliable) => actual.Broadcast? && (reliable ==> actual.reliable)
  }

  function New<M>(i: u16, n: u16, expected: MessageType): RoundInput<M>
    requires 2 <= n && i < n
  {
    var slots := seq(n - 1, _ => None);
    VacantBounds(slots);
    InputFields(i, n, seq(n - 1, _ => 0), slots, n - 1, expected)
  }

  function Add<M>(s: RoundInput<M>, m: Incoming<M>): (r: Added<RoundInput<M>, InputError>)
    ensures r.error.Some? ==> r.store == s
    ensures r.store.(ids := s.ids, messages := s.messages, left := s.left) == s
    ensures (r.error.Some? && r.error.value.MismatchedMessageType?) <==>
      !(m.msgType == s.expected || (s.expected == Broadcast(false) && m.msgType == Broadcast(true)))
  {
    if !Accepts(s.expected, m.msgType) then
      Added(s, Some(MismatchedMessageType(m.id, s.expected, m.msgType)))
    else if m.sender == s.i then
      Added(s, None)
    else
      var k := Slot(s.i, m.sender);
      if k >= |s.messages| then
        Added(s, Some(SenderIndexOutOfRange(m.id, m.sender, s.n)))
      else if s.messages[k].Some? then
        Added(s, Some(AttemptToOverwriteReceivedMsg(s.ids[k], m.id, m.sender)))
      else
        VacantUpdate(s.messages, k, m.msg);
        Added(s.(messages := s.messages[k := Some(m.msg)], ids := s.ids[k := m.id], left := s.left - 1), None)
  }

  function Flatten<M>(slots: seq<Option<M>>): seq<M> {
    if slots == [] then []
    else (if slots[0].Some? then [slots[0].value] else []) + Flatten(slots[1..])
  }

  lemma {:induction false} FlattenFull<M>(slots: seq<Option<M>>)
    requires forall k :: 0 <= k < |slots| ==> slots[k].Some?
    ensures |Flatten(slots)| == |slots|
    ensures forall k :: 0 <= k < |slots| ==> slots[k] == Some(Flatten(slots)[k])
  {
    if slots != [] {
      FlattenFull(slots[1..]);
    }
  }

  function Output<M>(s: RoundInput<M>): Option<RoundMsgs<M>> {
    if s.left > 0 then None else Some(RoundMsgs(s.i, s.ids, Flatten(s.messages)))
  }

  function Ops<M>(): StoreOps<RoundInput<M>, M, RoundMsgs<M>, InputError> {
    StoreOps((s, m) => Add(s, m), (s: RoundInput<M>) => s.left > 0, (s: RoundInput<M>) => Output(s))
  }

  /** The store obeys the store law in every state. */
  lemma InputIsLawful<M(!new)>()
    ensures Lawful(Ops<M>(), _ => true)
  {
    forall s: RoundInput<M> | !Ops<M>().wantsMore(s) ensures Ops<M>().output(s).Some? {
      assert s.left == 0;
    }
  }

  // ----- What the store holds after any sequence of messages

  /** The first message of acceptable type that `sender` sent, if any. */
  function FirstFrom<M>(expected: MessageType, ms: seq<Incoming<M>>, sender: u16): (f: Option<Incoming<M>>)
    ensures f.Some? ==> f.value in ms && f.value.sender == sender && Accepts(expected, f.value.msgType)
    ensures f.None? ==> forall m :: m in ms && m.sender == sender ==> !Accepts(expected, m.msgType)
  {
    if ms == [] then None
    else
      var init, last := ms[..|ms| - 1], ms[|ms| - 1];
      assert ms == init + [last];
      var f := FirstFrom(expected, init, sender);
      if f.None? && last.sender == sender && Accepts(expected, last.msgType) then Some(last) else f
  }

  ghost predicate SlotHolds<M>(s: RoundInput<M>, sender: u16, f: Option<Incoming<M>>)
    requires sender < s.n && sender != s.i
  {
    match f
    case None => s.messages[Slot(s.i, sender)].None? && s.ids[Slot(s.i, sender)] == 0
    case Some(m) => s.messages[Slot(s.i, sender)] == Some(m.msg) && s.ids[Slot(s.i, sender)] == m.id
  }

  /** After any messages at all, the slot of each other party holds its first acceptable message. */
  lemma {:induction false} SlotsHoldFirstMessages<M>(i: u16, n: u16, expected: MessageType, ms: seq<Incoming<M>>)
    requires 2 <= n && i < n
    ensures
      var s := AddAll(Ops(), New(i, n, expected), ms);
      && s.i == i && s.n == n && s.expected == expected
      && forall p: u16 :: p < n && p != i ==> SlotHolds(s, p, FirstFrom(expected, ms, p))
  {
    if ms != [] {
      SlotsHoldFirstMessages(i, n, expected, ms[..|ms| - 1]);
    }
  }

  /** Exactly which messages are rejected, and with which error. */
  lemma RejectedExactly<M>(i: u16, n: u16, expected: MessageType, ms: seq<Incoming<M>>, m: Incoming<M>)
    requires 2 <= n && i < n
    ensures
      Add(AddAll(Ops(), New(i, n, expected), ms), m).error ==
      if m.msgType != expected && !(expected == Broadcast(false) && m.msgType == Broadcast(true)) then
        Some(MismatchedMessageType(m.id, expected, m.msgType))
      else if m.sender == i then None
      else if m.sender >= n then Some(SenderIndexOutOfRange(m.id, m.sender, n))
      else match FirstFrom(expected, ms, m.sender)
        case None => None
        case Some(first) => Some(AttemptToOverwriteReceivedMsg(first.id, m.id, m.sender))
  {
    SlotsHoldFirstMessages(i, n, expected, ms);
  }

  ghost predicate OnePerSender<M>(expected: MessageType, ms: seq<Incoming<M>>, i: u16) {
    forall a, b | a in ms && b in ms && Accepts(expected, a.msgType) && Accepts(expected, b.msgType) ::
      a.sender == b.sender && a.sender != i ==> a == b
  }

  /** Confluence: when no party sends two different messages, the order of arrival is irrelevant. */
  lemma OrderIsIrrelevant<M>(i: u16, n: u16, expected: MessageType, ms: seq<Incoming<M>>, ms': seq<Incoming<M>>)
    requires 2 <= n && i < n
    requires OnePerSender(expected, ms, i)
    requires multiset(ms) == multiset(ms')
    ensures AddAll(Ops(), New(i, n, expected), ms) == AddAll(Ops(), New(i, n, expected), ms')
  {
    var s, s' := AddAll(Ops(), New(i, n, expected), ms), AddAll(Ops(), New(i, n, expected), ms');
    SlotsHoldFirstMessages(i, n, expected, ms);
    SlotsHoldFirstMessages(i, n, expected, ms');
    forall m ensures m in ms <==> m in ms' {
      assert m in ms <==> m in multiset(ms);
      assert m in ms' <==> m in multiset(ms');
    }
    forall k | 0 <= k < n - 1 ensures s.messages[k] == s'.messages[k] && s.ids[k] == s'.ids[k] {
      var p: u16 := if k < i then k else k + 1;
      assert Slot(i, p) == k;
      assert FirstFrom(expected, ms, p) == FirstFrom(expected, ms', p);
      assert SlotHolds(s, p, FirstFrom(expected, ms, p)) && SlotHolds(s', p, FirstFrom(expected, ms', p));
    }
    assert s.messages == s'.messages && s.ids == s'.ids;
  }

  // ----- Views of the output

  /** `into_vec_including_me` */
  function IncludingMe<M>(r: RoundMsgs<M>, mine: M): seq<M>
    requires r.i <= |r.messages|
  {
    r.messages[..r.i] + [mine] + r.messages[r.i..]
  }

  /** All parties but the local one, in ascending order. */
  function OtherParties(i: u16, count: nat): seq<nat>
    requires i <= count
  {
    seq(i, j => j) + seq(count - i, j => i + 1 + j)
  }

  /** `into_iter_indexed`: sender, message id and message. */
  function Indexed<M>(r: RoundMsgs<M>): seq<(nat, nat, M)>
    requires r.i <= |r.messages| == |r.ids|
  {
    var parties := OtherParties(r.i, |r.messages|);
    seq(|r.messages|, j requires 0 <= j < |r.messages| => (parties[j], r.ids[j], r.messages[j]))
  }

  /** The store outputs exactly when every other party has sent an acceptable message. */
  lemma OutputsExactlyWhenFull<M>(i: u16, n: u16, expected: MessageType, ms: seq<Incoming<M>>)
    requires 2 <= n && i < n
    ensures
      var s := AddAll(Ops(), New(i, n, expected), ms);
      && (Output(s).Some? <==> forall p: u16 :: p < n && p != i ==> FirstFrom(expected, ms, p).Some?)
      && (Output(s).Some? <==> !Ops<M>().wantsMore(s))
  {
    var s := AddAll(Ops(), New(i, n, expected), ms);
    SlotsHoldFirstMessages(i, n, expected, ms);
    VacantBounds(s.messages);
    if s.left == 0 {
      forall p: u16 | p < n && p != i ensures FirstFrom(expected, ms, p).Some? {
        assert SlotHolds(s, p, FirstFrom(expected, ms, p));
      }
    } else {
      var k :| 0 <= k < |s.messages| && s.messages[k].None?;
      var p: u16 := if k < i then k else k + 1;
      assert SlotHolds(s, p, FirstFrom(expected, ms, p));
    }
  }

  /** Some message of party `p` has this type. */
  ghost predicate HasSent<M>(ms: seq<Incoming<M>>, p: u16, msgType: MessageType) {
    exists m :: m in ms && m.sender == p && m.msgType == msgType
  }

  /** Party `p` has sent what a store of this type takes: a point-to-point message, a reliable broadcast,
      or a broadcast of either kind. */
  ghost predicate Supplied<M>(expected: MessageType, ms: seq<Incoming<M>>, p: u16) {
    match expected
    case P2P => HasSent(ms, p, P2P)
    case Broadcast(true) => HasSent(ms, p, Broadcast(true))
    case Broadcast(false) => HasSent(ms, p, Broadcast(false)) || HasSent(ms, p, Broadcast(true))
  }

  /** Which messages complete a store, by the type it expects. */
  lemma CompletesByType<M>(i: u16, n: u16, expected: MessageType, ms: seq<Incoming<M>>)
    requires 2 <= n && i < n
    ensures Output(AddAll(Ops(), New(i, n, expected), ms)).Some? <==>
      forall p: u16 :: p < n && p != i ==> Supplied(expected, ms, p)
  {
    OutputsExactlyWhenFull(i, n, expected, ms);
    if Output(AddAll(Ops(), New(i, n, expected), ms)).Some? {
      forall p: u16 | p < n && p != i ensures Supplied(expected, ms, p) {
        assert FirstFrom(expected, ms, p).Some?;
        assert HasSent(ms, p, FirstFrom(expected, ms, p).value.msgType);
      }
    } else {
      var p: u16 :| p < n && p != i && FirstFrom(expected, ms, p).None?;
      assert !Supplied(expected, ms, p);
    }
  }

  lemma OutputShape<M>(i: u16, n: u16, expected: MessageType, ms: seq<Incoming<M>>)
    requires 2 <= n && i < n
    requires Output(AddAll(Ops(), New(i, n, expected), ms)).Some?
    ensures
      var r := Output(AddAll(Ops(), New(i, n, expected), ms)).value;
      r.i == i && |r.messages| == |r.ids| == n - 1
  {
    var s := AddAll(Ops(), New(i, n, expected), ms);
    SlotsHoldFirstMessages(i, n, expected, ms);
    VacantBounds(s.messages);
    FlattenFull(s.messages);
  }

  lemma ViewsOfParty<M>(r: RoundMsgs<M>, mine: M, p: u16)
    requires r.i <= |r.messages| == |r.ids| && p <= |r.messages|
    ensures |IncludingMe(r, mine)| == |r.messages| + 1
    ensures IncludingMe(r, mine)[p] == if p == r.i then mine else r.messages[Slot(r.i, p)]
    ensures p != r.i ==> Indexed(r)[Slot(r.i, p)] == (p, r.ids[Slot(r.i, p)], r.messages[Slot(r.i, p)])
  {
  }

  /** Every view of the output places party `p`'s first acceptable message where it claims to. */
  lemma ViewsAgree<M>(i: u16, n: u16, expected: MessageType, ms: seq<Incoming<M>>, mine: M, p: u16)
    requires 2 <= n && i < n && p < n
    requires Output(AddAll(Ops(), New(i, n, expected), ms)).Some?
    ensures
      var r := Output(AddAll(Ops(), New(i, n, expected), ms)).value;
      && r.i == i && |r.messages| == |r.ids| == n - 1 && |IncludingMe(r, mine)| == n
      && if p == i then IncludingMe(r, mine)[p] == mine
         else
           && FirstFrom(expected, ms, p).Some?
           && var first := FirstFrom(expected, ms, p).value;
              && IncludingMe(r, mine)[p] == first.msg
              && Indexed(r)[Slot(i, p)] == (p, first.id, first.msg)
  {
    var s := AddAll(Ops(), New(i, n, expected), ms);
    SlotsHoldFirstMessages(i, n, expected, ms);
    VacantBounds(s.messages);
    FlattenFull(s.messages);
    ViewsOfParty(Output(s).value, mine, p);
    assert p != i ==> SlotHolds(s, p, FirstFrom(expected, ms, p));
  }

  /** The iterator behind `into_iter_including_me`: yields `item` once `offset` elements have passed. */
  class InsertsAfter<T> {
    var offset: nat
    var inner: seq<T>
    var item: Option<T>

    ghost predicate Valid()
      reads this
    {
      if item.Some? then offset <= |inner| else offset == 0
    }

    /** The elements still to come. */
    ghost function Remaining(): seq<T>
      requires Valid()
      reads this
    {
      if item.Some? then inner[..offset] + [item.value] + inner[offset..] else inner
    }

    constructor (offset: nat, inner: seq<T>, item: T)
      requires offset <= |inner|
      ensures Valid() && Remaining() == inner[..offset] + [item] + inner[offset..]
    {
      this.offset, this.inner, this.item := offset, inner, Some(item);
    }

    method Next() returns (x: Option<T>)
      requires Valid()
      modifies this
      ensures Valid()
      ensures old(Remaining()) == [] ==> x.None? && Remaining() == []
      ensures old(Remaining()) != [] ==> x == Some(old(Remaining())[0]) && Remaining() == old(Remaining())[1..]
    {
      if offset == 0 && item.Some? {
        x := item;
        item := None;
      } else {
        if offset > 0 {
          offset := offset - 1;
        }
        if inner == [] {
          x := None;
        } else {
          x := Some(inner[0]);
          inner := inner[1..];
        }
      }
    }
  }

  /** Collecting the iterator gives the same sequence as inserting into the vector. */
  method IntoIterIncludingMe<T>(r: RoundMsgs<T>, mine: T) returns (all: seq<T>)
    requires r.i <= |r.messages|
    ensures all == IncludingMe(r, mine)
  {
    var it := new InsertsAfter(r.i, r.messages, mine);
    all := [];
    var x := it.Next();
    while x.Some?
      invariant it.Valid()
      invariant all + (if x.Some? then [x.value] else []) + it.Remaining() == IncludingMe(r, mine)
      invariant x.None? ==> it.Remaining() == []
      decreases |it.Remaining()|, x.Some?
    {
      all := all + [x.value];
      x := it.Next();
    }
  }

  // ----- The store as the source writes it: two buffers and a counter, updated in place

  class RoundInputCell<M> {
    const i: u16
    const n: u16
    const messagesIds: array<nat>
    const messages: array<Option<M>>
    var leftMessages: u16
    const expectedMsgType: MessageType

    ghost function Fields(): InputFields<M>
      reads this, messages, messagesIds
    {
      InputFields(i, n, messagesIds[..], messages[..], leftMessages, expectedMsgType)
    }

    ghost predicate Valid()
      reads this, messages, messagesIds
    {
      WellFormed(Fields())
    }

    constructor (i: u16, n: u16, msgType: MessageType)
      requires 2 <= n && i < n
      ensures Valid() && Fields() == New(i, n, msgType)
      ensures fresh(messages) && fresh(messagesIds)
    {
      this.i, this.n, this.expectedMsgType := i, n, msgType;
      leftMessages := n - 1;
      messagesIds := new nat[n - 1](_ => 0);
      messages := new Option<M>[n - 1](_ => None);
      new;
      assert Fields().messages == New<M>(i, n, msgType).messages;
      assert Fields().ids == New<M>(i, n, msgType).ids;
    }

    method AddMessage(msg: Incoming<M>) returns (error: Option<InputError>)
      requires Valid()
      modifies this, messages, messagesIds
      ensures Valid()
      ensures Added(Fields(), error) == Add(old(Fields()), msg)
      ensures (error.Some? && error.value.MismatchedMessageType?) <==>
        !(msg.msgType == expectedMsgType || (expectedMsgType == Broadcast(false) && msg.msgType == Broadcast(true)))
    {
      if !Accepts(expectedMsgType, msg.msgType) {
        return Some(MismatchedMessageType(msg.id, expectedMsgType, msg.msgType));
      }
      if msg.sender == i {
        return None;
      }
      var index := if msg.sender < i then msg.sender else msg.sender - 1;
      if index >= messages.Length {
        return Some(SenderIndexOutOfRange(msg.id, msg.sender, n));
      }
      if messages[index].Some? {
        return Some(AttemptToOverwriteReceivedMsg(messagesIds[index], msg.id, msg.sender));
      }
      ghost var before := Fields();
      VacantUpdate(messages[..], index, msg.msg);
      messages[index] := Some(msg.msg);
      messagesIds[index] := msg.id;
      leftMessages := leftMessages - 1;
      assert Fields().messages == before.messages[index := Some(msg.msg)];
      assert Fields().ids == before.ids[index := msg.id];
      return None;
    }
  }
}
