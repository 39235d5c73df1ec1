/**
 * The part of the Discord guild the bot touches, as an oracle: members it
 * can fetch, the channels it has created and the messages it has posted.
 * Creating a channel and sending a message may fail for reasons outside the
 * model; the methods choose success or failure freely.
 */
module Discord {
  import opened Wrappers

  /** A key of a permission-overwrite map: the guild's default role or a member. */
  datatype Principal = DefaultRole | Member(id: nat)

  /** A text channel with its name and its `read_messages` overwrites. */
  datatype Channel = Channel(id: nat, name: string, overwrites: map<Principal, bool>)

  /** A message sent to the channel with id `channelId`. */
  datatype Post = Post(channelId: nat, text: string)

  class Guild {
    /** The bot's own member id (`guild.me`). */
    const me: nat
    /** The ids for which `fetch_member` succeeds. */
    const members: set<nat>
    var channels: seq<Channel>
    var posts: seq<Post>
    /** Channel ids are snowflakes: each new one exceeds every earlier one. */
    var nextId: nat

    ghost predicate Valid()
      reads this
    {
      && (forall i :: 0 <= i < |channels| ==> channels[i].id < nextId)
      && (forall i, j :: 0 <= i < j < |channels| ==> channels[i].id < channels[j].id)
    }

    constructor (me: nat, members: set<nat>)
      ensures Valid() && this.me == me && this.members == members
      ensures channels == [] && posts == []
    {
      this.me := me;
      this.members := members;
      channels := [];
      posts := [];
      nextId := 0;
    }

    /** `fetch_member(id)`: the member if there is one with this id; otherwise it raises (None). */
    method FetchMember(id: int) returns (r: Option<nat>)
      ensures r.Some? <==> id >= 0 && id as nat in members
      ensures r.Some? ==> r.value == id
    {
      if id >= 0 && id as nat in members {
        r := Some(id as nat);
      } else {
        r := None;
      }
    }

    /** `create_text_channel(name, overwrites=...)`: a fresh channel, or None when the call raises. */
    method CreateTextChannel(name: string, overwrites: map<Principal, bool>) returns (r: Option<Channel>)
      requires Valid()
      modifies this
      ensures Valid() && posts == old(posts)
      ensures r.None? ==> channels == old(channels)
      ensures r.Some? ==> r.value == Channel(r.value.id, name, overwrites)
      ensures r.Some? ==> channels == old(channels) + [r.value]
      ensures r.Some? ==> forall c :: c in old(channels) ==> c.id < r.value.id
    {
      var ok: bool :| true;
      if ok {
        var c := Channel(nextId, name, overwrites);
        ghost var before := channels;
        channels := channels + [c];
        nextId := nextId + 1;
        r := Some(c);
        assert forall i :: 0 <= i < |before| ==> before[i].id < c.id;
      } else {
        r := None;
      }
    }

    /** `channel.send(text)`: records the post, or leaves everything as it was when the call raises. */
    method Send(channel: Channel, text: string) returns (ok: bool)
      modifies this
      ensures channels == old(channels) && nextId == old(nextId)
      ensures posts == old(posts) + (if ok then [Post(channel.id, text)] else [])
    {
      ok :| true;
      if ok {
        posts := posts + [Post(channel.id, text)];
      }
    }
  }
}
