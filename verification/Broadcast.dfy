/** The broadcaster: live subscribers by session, with bounded buffers that are closed when full. */
module Broadcast {
  import opened Ledger
  import opened Stream

  /** A channel as a value: the subscription, what its receiver has taken, how many frames had been published for it. */
  datatype Feed = Feed(sub: Sub, taken: seq<Frame>, end: nat)

  /** The frames published so far, by session. */
  type Log = map<SessionId, seq<Frame>>

  function FramesAt(published: Log, sid: SessionId): seq<Frame> {
    if sid in published then published[sid] else []
  }

  /** Offering a frame changes the subscription; what was taken stays, and the end moves only if the frame got in. */
  function OfferFeed(feed: Feed, f: Frame): Feed {
    Feed(Offer(feed.sub, f), feed.taken,
         if feed.sub.registered && |feed.sub.queue| < BUFFER then feed.end + 1 else feed.end)
  }

  /** A buffered channel of frames. Sending to a closed channel or closing it twice would panic. */
  class Channel {
    var buf: seq<Frame>
    var closed: bool

    /** Whose frames it carries, and under which id it was registered. */
    const topic: SessionId
    const id: nat
    /** What its receiver has taken, and which frames of the session it was sent: numbers start to end. */
    ghost var taken: seq<Frame>
    ghost const start: nat
    ghost var end: nat

    constructor (topic: SessionId, id: nat, ghost start: nat)
      ensures buf == [] && !closed && taken == []
      ensures this.topic == topic && this.id == id && this.start == start && end == start
    {
      buf, closed, taken := [], false, [];
      this.topic, this.id, this.start, end := topic, id, start, start;
    }

    /** The channel as a subscription: what waits in it, and whether it is still registered. */
    ghost function AsSub(): Sub
      reads this
    {
      Sub(buf, !closed)
    }

    /** Also what its receiver has taken, and how far its frames reach. */
    ghost function AsFeed(): Feed
      reads this
    {
      Feed(AsSub(), taken, end)
    }

    /** Taken and waiting frames are a contiguous run of the frames published since subscribing, up to the drop. */
    ghost predicate Tracks(published: seq<Frame>)
      reads this
    {
      && |buf| <= BUFFER
      && start <= end <= |published|
      && taken + buf == published[start..end]
      && (!closed ==> end == |published|)
    }

    method Send(f: Frame, ghost published: seq<Frame>)
      requires !closed && |buf| < BUFFER && Tracks(published)
      modifies this
      ensures AsFeed() == Feed(Sub(old(buf) + [f], true), old(taken), old(end) + 1) && Tracks(published + [f])
    {
      assert (published + [f])[start..end + 1] == published[start..end] + [f];
      buf := buf + [f];
      end := end + 1;
    }

    method Close()
      requires !closed
      modifies this`closed
      ensures closed
    {
      closed := true;
    }

    /** Receiving: the oldest frame, or nothing once the channel is closed and drained. */
    method Receive() returns (f: Frame, ok: bool)
      requires buf != [] || closed
      modifies this
      ensures closed == old(closed) && end == old(end) && taken + buf == old(taken + buf)
      ensures ok == (old(buf) != [])
      ensures if ok then [f] + buf == old(buf) && taken == old(taken) + [f] else buf == [] && taken == old(taken)
    {
      if buf == [] {
        return DeltaFrame("", "", 0), false;
      }
      f, ok := buf[0], true;
      assert taken + buf == taken + [buf[0]] + buf[1..];
      taken := taken + [buf[0]];
      buf := buf[1..];
    }
  }

  lemma ClosedTracks(ch: Channel, published: seq<Frame>, f: Frame)
    requires ch.Tracks(published) && ch.closed
    ensures ch.Tracks(published + [f])
  {
    assert (published + [f])[ch.start..ch.end] == published[ch.start..ch.end];
  }

  class Broadcaster {
    var next: nat
    var subs: map<SessionId, map<nat, Channel>>
    /** Every frame published so far, by session, and every channel handed out so far. */
    ghost var published: map<SessionId, seq<Frame>>
    ghost var channels: set<Channel>

    ghost function Published(sid: SessionId): seq<Frame>
      reads this`published
    {
      FramesAt(published, sid)
    }

    ghost predicate Registered(ch: Channel)
      reads this`subs
    {
      ch.topic in subs && ch.id in subs[ch.topic] && subs[ch.topic][ch.id] == ch
    }

    /** Exactly the registered channels are open, each under its session and its own id. */
    ghost predicate Indexed()
      reads this`next, this`subs, this`channels, channels
    {
      && (forall sid, id :: sid in subs && id in subs[sid] ==>
            subs[sid][id] in channels && subs[sid][id].topic == sid && subs[sid][id].id == id)
      && (forall ch :: ch in channels ==> ch.id <= next && (Registered(ch) <==> !ch.closed))
      && (forall c, d :: c in channels && d in channels && c.id == d.id ==> c == d)
    }

    ghost predicate Valid()
      reads this, channels
    {
      Indexed() && forall ch :: ch in channels ==> ch.Tracks(Published(ch.topic))
    }

    constructor ()
      ensures Valid() && channels == {} && published == map[]
    {
      next, subs, published, channels := 0, map[], map[], {};
    }

    method Register(ch: Channel)
      requires Indexed() && !ch.closed && ch.id == next && forall c :: c in channels ==> c.id < next
      modifies this`subs, this`channels
      ensures Indexed() && channels == old(channels) + {ch}
    {
      var group: map<nat, Channel> := if ch.topic in subs then subs[ch.topic] else map[];
      subs := subs[ch.topic := group[ch.id := ch]];
      channels := channels + {ch};
      assert forall c :: c in channels && c != ch ==> Registered(c) == old(Registered(c));
    }

    method Subscribe(sid: SessionId) returns (id: nat, ch: Channel)
      requires Valid()
      modifies this
      ensures Valid() && fresh(ch) && channels == old(channels) + {ch} && published == old(published)
      ensures ch.topic == sid && ch.id == id && ch.start == |Published(sid)|
      ensures ch.AsFeed() == Feed(Sub([], true), [], ch.start)
      ensures forall c :: c in old(channels) ==> c.AsFeed() == old(c.AsFeed())
    {
      next := next + 1;
      id := next;
      ch := new Channel(sid, id, |Published(sid)|);
      Register(ch);
    }

    /** close and delete, as done for an unsubscriber and for a subscriber that fell behind. */
    method Drop(ch: Channel)
      requires Indexed() && ch in channels && !ch.closed
      modifies this`subs, ch`closed
      ensures Indexed() && ch.closed
      ensures subs == old(subs)[ch.topic := old(subs[ch.topic]) - {ch.id}]
    {
      ch.Close();
      subs := subs[ch.topic := subs[ch.topic] - {ch.id}];
      assert forall c :: c in channels && c != ch ==> c.id != ch.id && Registered(c) == old(Registered(c));
    }

    /** Removes a session no subscriber is left for. */
    method Forget(sid: SessionId)
      requires Indexed() && sid in subs && subs[sid] == map[]
      modifies this`subs
      ensures Indexed() && subs == old(subs) - {sid}
    {
      subs := subs - {sid};
      assert forall c :: c in channels ==> Registered(c) == old(Registered(c));
    }

    /** Closes and removes the channel if it is still registered; otherwise changes nothing. */
    method Unsubscribe(sid: SessionId, id: nat)
      requires Valid()
      modifies this`subs, channels
      ensures Valid() && channels == old(channels) && published == old(published)
      ensures forall ch :: ch in channels ==>
                ch.AsFeed() == if ch.topic == sid && ch.id == id
                               then old(ch.AsFeed()).(sub := Sub(old(ch.buf), false)) else old(ch.AsFeed())
    {
      if sid in subs {
        if id in subs[sid] {
          Drop(subs[sid][id]);
        }
        if subs[sid] == map[] {
          Forget(sid);
        }
      }
    }

    /** The frame goes into the buffer; if that is full the subscriber is dropped instead. */
    method OfferTo(ch: Channel, f: Frame)
      requires Indexed() && ch in channels && !ch.closed && ch.Tracks(Published(ch.topic))
      modifies this`subs, ch
      ensures Indexed() && ch.AsFeed() == OfferFeed(old(ch.AsFeed()), f) && ch.Tracks(Published(ch.topic) + [f])
      ensures subs == old(subs) || subs == old(subs)[ch.topic := old(subs[ch.topic]) - {ch.id}]
    {
      if |ch.buf| < BUFFER {
        ch.Send(f, Published(ch.topic));
      } else {
        Drop(ch);
        ClosedTracks(ch, Published(ch.topic), f);
      }
    }

    /** Midway through publishing: the session's subscribers not in `todo` have been offered the frame. */
    ghost predicate Offered(was: map<Channel, Feed>, sid: SessionId, f: Frame, todo: set<nat>)
      reads this, channels
    {
      forall ch :: ch in channels ==>
        && ch in was
        && (if ch.topic == sid && ch.id !in todo
            then ch.AsFeed() == OfferFeed(was[ch], f) && ch.Tracks(Published(sid) + [f])
            else ch.AsFeed() == was[ch] && ch.Tracks(Published(ch.topic)))
    }

    method OfferNext(ghost was: map<Channel, Feed>, sid: SessionId, f: Frame, ghost todo: set<nat>, id: nat)
      requires Indexed() && Offered(was, sid, f, todo) && id in todo && sid in subs && todo <= subs[sid].Keys
      modifies this`subs, subs[sid][id]
      ensures Indexed() && Offered(was, sid, f, todo - {id})
      ensures sid in subs && todo - {id} <= subs[sid].Keys
    {
      OfferTo(subs[sid][id], f);
    }

    /** Ranges over the session's group, in any order. */
    method OfferAll(ghost was: map<Channel, Feed>, sid: SessionId, f: Frame)
      requires Valid() && was == map ch | ch in channels :: ch.AsFeed()
      modifies this`subs, channels
      ensures Indexed() && Offered(was, sid, f, {})
    {
      var todo: set<nat> := if sid in subs then subs[sid].Keys else {};
      UnregisteredAreClosed(was, sid, f, todo);
      while todo != {}
        invariant Indexed() && Offered(was, sid, f, todo)
        invariant todo != {} ==> sid in subs && todo <= subs[sid].Keys
      {
        var id :| id in todo;
        OfferNext(was, sid, f, todo, id);
        todo := todo - {id};
      }
    }

    /** Offers the frame to every live subscriber of the session. */
    method Publish(sid: SessionId, f: Frame)
      requires Valid()
      modifies this, channels
      ensures Valid() && channels == old(channels)
      ensures published == old(published)[sid := old(Published(sid)) + [f]]
      ensures forall ch :: ch in channels ==>
                ch.AsFeed() == if ch.topic == sid then OfferFeed(old(ch.AsFeed()), f) else old(ch.AsFeed())
    {
      ghost var was := map ch | ch in channels :: ch.AsFeed();
      OfferAll(was, sid, f);
      published := published[sid := Published(sid) + [f]];
    }

    /** At the start, a channel of the session outside its group has been closed: the frame does not concern it. */
    lemma UnregisteredAreClosed(was: map<Channel, Feed>, sid: SessionId, f: Frame, todo: set<nat>)
      requires Valid() && was == map ch | ch in channels :: ch.AsFeed()
      requires todo == if sid in subs then subs[sid].Keys else {}
      ensures Offered(was, sid, f, todo)
    {
      forall ch | ch in channels && ch.topic == sid && ch.id !in todo
        ensures ch.closed && ch.Tracks(Published(sid) + [f]) {
        assert !Registered(ch);
        ClosedTracks(ch, Published(sid), f);
      }
    }

    /** A subscriber takes its next frame, or learns that it was dropped. */
    method ReceiveFrom(ch: Channel) returns (f: Frame, ok: bool)
      requires Valid() && ch in channels && (ch.buf != [] || ch.closed)
      modifies ch
      ensures Valid() && ok == (old(ch.buf) != [])
      ensures ok ==> [f] + ch.buf == old(ch.buf)
      ensures ch.AsFeed() == Feed(Sub(ch.buf, old(!ch.closed)), if ok then old(ch.taken) + [f] else old(ch.taken),
                                  old(ch.end))
      ensures !ok ==> ch.buf == [] && ch.closed && ch.taken == Published(ch.topic)[ch.start..ch.end]
    {
      f, ok := ch.Receive();
      assert |ch.buf| <= |old(ch.buf)|;
      assert ch.Tracks(Published(ch.topic));
      assert forall c :: c in channels && c != ch ==> c.Tracks(Published(c.topic));
      assert !ok ==> ch.taken + [] == ch.taken;
    }
  }
}
