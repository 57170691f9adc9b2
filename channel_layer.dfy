/**
  * The Django Channels channel layer as the consumer uses it: named groups of channels,
  * and for every channel the frames its consumer has written to its WebSocket.
  * A group event (`group_send`) reaches every channel of the group; the receiving
  * `ChatConsumer`'s handler for it (`error_message` or `chat_message`) writes
  * `event['message']` to its socket unchanged, so delivery appends that frame.
  */
module ChannelLayer {
  import opened Protocol

  type Channel = string
  type Group = string

  datatype Hub = Hub(groups: map<Group, set<Channel>>, outbox: map<Channel, seq<Frame>>)

  /** The channels in group `g`; a group nobody joined is empty. */
  function Members(h: Hub, g: Group): set<Channel>
  {
    if g in h.groups then h.groups[g] else {}
  }

  /** The frames written so far to channel `c`'s socket. */
  function Sent(h: Hub, c: Channel): seq<Frame>
  {
    if c in h.outbox then h.outbox[c] else []
  }

  /** `group_add(g, c)` */
  function AddToGroup(h: Hub, g: Group, c: Channel): (r: Hub)
    ensures Members(r, g) == Members(h, g) + {c}
    ensures forall g' :: g' != g ==> Members(r, g') == Members(h, g')
    ensures r.outbox == h.outbox
  {
    h.(groups := h.groups[g := Members(h, g) + {c}])
  }

  /** `group_discard(g, c)` */
  function DiscardFromGroup(h: Hub, g: Group, c: Channel): (r: Hub)
    ensures Members(r, g) == Members(h, g) - {c}
    ensures forall g' :: g' != g ==> Members(r, g') == Members(h, g')
    ensures r.outbox == h.outbox
  {
    h.(groups := h.groups[g := Members(h, g) - {c}])
  }

  /** `group_send(g, event)` followed by each member's handler writing `f` to its socket. */
  function Broadcast(h: Hub, g: Group, f: Frame): (r: Hub)
    ensures r.groups == h.groups
    ensures forall c :: c in Members(h, g) ==> Sent(r, c) == Sent(h, c) + [f]
    ensures forall c :: c !in Members(h, g) ==> Sent(r, c) == Sent(h, c)
  {
    var targets := Members(h, g);
    h.(outbox := map c | c in h.outbox.Keys + targets :: if c in targets then Sent(h, c) + [f] else h.outbox[c])
  }

  /** `self.send(text_data=...)` on channel `c`'s own socket. */
  function SendTo(h: Hub, c: Channel, f: Frame): (r: Hub)
    ensures r.groups == h.groups
    ensures Sent(r, c) == Sent(h, c) + [f]
    ensures forall c' :: c' != c ==> Sent(r, c') == Sent(h, c')
  {
    h.(outbox := h.outbox[c := Sent(h, c) + [f]])
  }

  /** Joining a group twice is joining it once. */
  lemma AddIdempotent(h: Hub, g: Group, c: Channel)
    ensures AddToGroup(AddToGroup(h, g, c), g, c) == AddToGroup(h, g, c)
  {
  }

  /** Leaving a group a second time changes nothing. */
  lemma DiscardIdempotent(h: Hub, g: Group, c: Channel)
    ensures DiscardFromGroup(DiscardFromGroup(h, g, c), g, c) == DiscardFromGroup(h, g, c)
  {
    var once := DiscardFromGroup(h, g, c);
    assert Members(once, g) - {c} == Members(once, g);
  }

  /** Leaving a group that one had joined restores its membership. */
  lemma DiscardUndoesAdd(h: Hub, g: Group, c: Channel)
    requires c !in Members(h, g)
    ensures Members(DiscardFromGroup(AddToGroup(h, g, c), g, c), g) == Members(h, g)
  {
  }

  /** The channel layer object shared by every consumer of the process. */
  class Layer {
    var groups: map<Group, set<Channel>>
    var outbox: map<Channel, seq<Frame>>

    function State(): Hub
      reads this
    {
      Hub(groups, outbox)
    }

    constructor ()
      ensures State() == Hub(map[], map[])
    {
      groups, outbox := map[], map[];
    }

    method GroupAdd(g: Group, c: Channel)
      modifies this
      ensures State() == AddToGroup(old(State()), g, c)
    {
      groups := groups[g := Members(State(), g) + {c}];
    }

    method GroupDiscard(g: Group, c: Channel)
      modifies this
      ensures State() == DiscardFromGroup(old(State()), g, c)
    {
      groups := groups[g := Members(State(), g) - {c}];
    }

    method GroupSend(g: Group, f: Frame)
      modifies this
      ensures State() == Broadcast(old(State()), g, f)
    {
      var targets := Members(State(), g);
      outbox := map c | c in outbox.Keys + targets :: if c in targets then Sent(State(), c) + [f] else outbox[c];
    }

    method Send(c: Channel, f: Frame)
      modifies this
      ensures State() == SendTo(old(State()), c, f)
    {
      outbox := outbox[c := Sent(State(), c) + [f]];
    }
  }
}
