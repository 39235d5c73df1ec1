/**
 * The bot's reconciliation tick, which only creates channels: take the
 * collaborative issues, skip those whose key the store already holds, and
 * run the create flow for each of the others. The create flow derives the
 * channel name, builds the permission overwrites and the mention list from
 * the collaborators that resolve to guild members, creates the channel,
 * posts the announcement, and only then saves the store record.
 */
module Bot {
  import opened Wrappers
  import opened Seqs
  import opened Text
  import opened JiraClient
  import opened Db
  import opened Discord

  // ---------------------------------------------------------------- channel name

  /** ASCII `str.lower()` on one character. */
  function Lower(c: char): char
  {
    if 'A' <= c <= 'Z' then (c as int + 32) as char else c
  }

  /** `.lower().replace(" ", "-")`, character by character. */
  function Normalize(s: string): (r: string)
    ensures |r| == |s|
  {
    if s == [] then []
    else
      var c := s[|s| - 1];
      Normalize(s[..|s| - 1]) + [if c == ' ' then '-' else Lower(c)]
  }

  /** `s[:n]`. */
  function Prefix(s: string, n: nat): string
  {
    if |s| <= n then s else s[..n]
  }

  predicate IsAsciiAlnum(c: char)
  {
    ('a' <= c <= 'z') || ('A' <= c <= 'Z') || ('0' <= c <= '9')
  }

  /** `c.isalnum() or c in "-_"`. */
  predicate Allowed(c: char)
  {
    IsAsciiAlnum(c) || c == '-' || c == '_'
  }

  /** The string the name is cut from: `f"{key}-{summary[:20]}"`, lowered, spaces replaced by `-`. */
  function RawName(key: string, summary: string): string
  {
    Normalize(key + "-" + Prefix(summary, 20))
  }

  /** The sanitised channel name. */
  function ChannelName(key: string, summary: string): string
  {
    Filter(RawName(key, summary), Allowed)
  }

  // ---------------------------------------------------------------- collaborators

  /** What the flow needs to know about the rest of the world; none of it changes during a tick. */
  datatype Env = Env(jiraUrl: string, me: nat, members: set<nat>, mappings: seq<EmailMapping>)

  function EnvOf(store: Store, guild: Guild, jiraUrl: string): Env
  {
    Env(jiraUrl, guild.me, guild.members, store.mappings)
  }

  /**
   * The member a collaborator e-mail resolves to: the mapped Discord id must
   * be non-empty, must parse with `int()`, and `fetch_member` must succeed.
   */
  function Resolve(mappings: seq<EmailMapping>, members: set<nat>, email: string): Option<nat>
  {
    match Lookup(mappings, email)
    case None => None
    case Some(d) =>
      if d == "" then None
      else
        match ParseInt(d)
        case None => None
        case Some(n) => if n >= 0 && n as nat in members then Some(n as nat) else None
  }

  /** The member ids of the collaborators that resolve, one per such collaborator, in order. */
  function ResolvedIds(mappings: seq<EmailMapping>, members: set<nat>, emails: seq<string>): seq<nat>
  {
    if emails == [] then []
    else
      var r := Resolve(mappings, members, emails[|emails| - 1]);
      ResolvedIds(mappings, members, emails[..|emails| - 1]) + (if r.Some? then [r.value] else [])
  }

  /** The overwrites: the default role and the bot first, then a read grant per resolved member. */
  function Overwrites(me: nat, ids: seq<nat>): map<Principal, bool>
  {
    if ids == [] then map[DefaultRole := false, Member(me) := true]
    else Overwrites(me, ids[..|ids| - 1])[Member(ids[|ids| - 1]) := true]
  }

  /** `member.mention`. */
  function Mention(id: nat): string
  {
    "<@" + DecimalString(id) + ">"
  }

  function Mentions(ids: seq<nat>): (r: seq<string>)
    ensures |r| == |ids|
  {
    if ids == [] then [] else Mentions(ids[..|ids| - 1]) + [Mention(ids[|ids| - 1])]
  }

  // ---------------------------------------------------------------- announcement

  function Link(jiraUrl: string, key: string): string
  {
    jiraUrl + "/browse/" + key
  }

  const TaskLine: string := "**New Collaborative Task**\n**Task:** "
  const LinkLine: string := "\n**Link:** "
  const AssigneesLine: string := "\n**Assignees:** "
  const Closing: string := "\n\nThis channel has been created for you to collaborate on this task."

  function Announcement(key: string, summary: string, link: string, mentions: string): string
  {
    TaskLine + key + ": " + summary + LinkLine + link + AssigneesLine + mentions + Closing
  }

  /** What the create flow derives from an issue before it calls Discord. */
  datatype Plan = Plan(name: string, overwrites: map<Principal, bool>, announcement: string)

  function IdsFor(env: Env, issue: Issue): seq<nat>
  {
    ResolvedIds(env.mappings, env.members, issue.collaborators)
  }

  function PlanFor(env: Env, issue: Issue): Plan
  {
    Plan(ChannelName(issue.key, issue.summary),
         Overwrites(env.me, IdsFor(env, issue)),
         Announcement(issue.key, issue.summary, Link(env.jiraUrl, issue.key), Join(Mentions(IdsFor(env, issue)), " ")))
  }

  /** `plans` holds the plan of each of `issues`, in order. */
  ghost predicate PlansOf(env: Env, plans: seq<Plan>, issues: seq<Issue>)
  {
    && |plans| == |issues|
    && forall k {:trigger PlanFor(env, issues[k])} :: 0 <= k < |issues| ==> plans[k] == PlanFor(env, issues[k])
  }

  // ---------------------------------------------------------------- effects of the flow

  /** How one run of the create flow ended; the id is that of the channel it created. */
  datatype Outcome = CreateRaised | SendRaised(channelId: nat) | SaveFailed(channelId: nat) | Saved(channelId: nat)

  /** What the flow adds to the guild's channels and posts and to the store's records. */
  datatype Effects = Effects(channels: seq<Channel>, posts: seq<Post>, rows: seq<IssueRecord>)
  {
    function Then(e: Effects): Effects
    {
      Effects(channels + e.channels, posts + e.posts, rows + e.rows)
    }
  }

  lemma ThenAssoc(a: Effects, b: Effects, c: Effects)
    ensures a.Then(b).Then(c) == a.Then(b.Then(c))
  {
    assert a.Then(b).Then(c).channels == a.Then(b.Then(c)).channels;
    assert a.Then(b).Then(c).posts == a.Then(b.Then(c)).posts;
    assert a.Then(b).Then(c).rows == a.Then(b.Then(c)).rows;
  }

  /** The effects of one run of the flow for `issue`, whose derived values are `plan`. */
  function StepEffects(plan: Plan, issue: Issue, o: Outcome): Effects
  {
    match o
    case CreateRaised => Effects([], [], [])
    case SendRaised(id) => Effects([Channel(id, plan.name, plan.overwrites)], [], [])
    case SaveFailed(id) => Effects([Channel(id, plan.name, plan.overwrites)], [Post(id, plan.announcement)], [])
    case Saved(id) =>
      Effects([Channel(id, plan.name, plan.overwrites)], [Post(id, plan.announcement)],
              [IssueRecord(issue.key, DecimalString(id), issue.summary)])
  }

  /** The effects of running the flow on `issues` in order, with the given plans and outcomes. */
  function TickEffects(plans: seq<Plan>, issues: seq<Issue>, outcomes: seq<Outcome>): Effects
    requires |plans| == |issues| == |outcomes|
  {
    if issues == [] then Effects([], [], [])
    else
      var n := |issues| - 1;
      TickEffects(plans[..n], issues[..n], outcomes[..n]).Then(StepEffects(plans[n], issues[n], outcomes[n]))
  }

  function IssueKeys(issues: seq<Issue>): seq<string>
  {
    seq(|issues|, i requires 0 <= i < |issues| => issues[i].key)
  }

  /** The issues the tick hands to the create flow: those whose key is not among `created`. */
  function ToCreate(issues: seq<Issue>, created: seq<string>): seq<Issue>
  {
    Filter(issues, NotStored(created))
  }

  function NotStored(created: seq<string>): Issue -> bool
  {
    (x: Issue) => x.key !in created
  }

  ghost function StateOf(store: Store, guild: Guild): Effects
    reads store, guild
  {
    Effects(guild.channels, guild.posts, store.issues)
  }

  // ---------------------------------------------------------------- the flow and the tick

  /** The loop over `issue.collaborators` that fills the overwrites and the mentions. */
  method ResolveCollaborators(store: Store, guild: Guild, collaborators: seq<string>)
    returns (overwrites: map<Principal, bool>, mentions: seq<string>)
    ensures overwrites == Overwrites(guild.me, ResolvedIds(store.mappings, guild.members, collaborators))
    ensures mentions == Mentions(ResolvedIds(store.mappings, guild.members, collaborators))
  {
    overwrites := map[DefaultRole := false, Member(guild.me) := true];
    mentions := [];
    ghost var ids: seq<nat> := [];
    var k := 0;
    while k < |collaborators|
      invariant 0 <= k <= |collaborators|
      invariant ids == ResolvedIds(store.mappings, guild.members, collaborators[..k])
      invariant overwrites == Overwrites(guild.me, ids)
      invariant mentions == Mentions(ids)
    {
      var email := collaborators[k];
      ghost var r := Resolve(store.mappings, guild.members, email);
      ResolvedIdsStep(store.mappings, guild.members, collaborators, k);
      var discordId := store.GetDiscordIdByEmail(email);
      if discordId.Some? && discordId.value != "" {
        var parsed := ParseInt(discordId.value);
        if parsed.Some? {
          var member := guild.FetchMember(parsed.value);
          if member.Some? {
            assert r == member;
            MentionsSnoc(ids, member.value);
            assert (ids + [member.value])[..|ids|] == ids;
            overwrites := overwrites[Member(member.value) := true];
            mentions := mentions + [Mention(member.value)];
            ids := ids + [member.value];
          }
        }
      }
      k := k + 1;
    }
    assert collaborators[..k] == collaborators;
  }

  lemma ResolvedIdsStep(mappings: seq<EmailMapping>, members: set<nat>, emails: seq<string>, k: nat)
    requires k < |emails|
    ensures ResolvedIds(mappings, members, emails[..k + 1])
         == ResolvedIds(mappings, members, emails[..k])
            + (var r := Resolve(mappings, members, emails[k]); if r.Some? then [r.value] else [])
  {
    assert emails[..k + 1][..k] == emails[..k];
  }

  lemma MentionsSnoc(ids: seq<nat>, id: nat)
    ensures Mentions(ids + [id]) == Mentions(ids) + [Mention(id)]
  {
    assert (ids + [id])[..|ids|] == ids;
  }

  /** `create_issue_channel`: create, then announce, then save; any raise ends the flow. */
  method CreateIssueChannel(store: Store, guild: Guild, issue: Issue, jiraUrl: string) returns (ghost o: Outcome)
    requires guild.Valid()
    modifies store, guild
    ensures guild.Valid()
    ensures StateOf(store, guild) == old(StateOf(store, guild)).Then(StepEffects(PlanFor(EnvOf(store, guild, jiraUrl), issue), issue, o))
    ensures !o.CreateRaised? ==> forall c :: c in old(guild.channels) ==> c.id < o.channelId
  {
    ghost var plan := PlanFor(EnvOf(store, guild, jiraUrl), issue);
    var name := ChannelName(issue.key, issue.summary);
    var overwrites, mentions := ResolveCollaborators(store, guild, issue.collaborators);
    assert name == plan.name && overwrites == plan.overwrites;
    var channel := guild.CreateTextChannel(name, overwrites);
    if channel.None? {
      return CreateRaised;
    }
    var summary := issue.summary;
    var link := Link(jiraUrl, issue.key);
    var message := Announcement(issue.key, summary, link, Join(mentions, " "));
    assert message == plan.announcement;
    var sent := guild.Send(channel.value, message);
    if !sent {
      return SendRaised(channel.value.id);
    }
    ghost var saved := store.SaveCreatedIssue(issue.key, DecimalString(channel.value.id), summary);
    o := if saved then Saved(channel.value.id) else SaveFailed(channel.value.id);
  }

  lemma ToCreateStep(issues: seq<Issue>, created: seq<string>, i: nat)
    requires i < |issues|
    ensures ToCreate(issues[..i + 1], created)
         == ToCreate(issues[..i], created) + (if issues[i].key !in created then [issues[i]] else [])
  {
    assert issues[..i + 1][..i] == issues[..i];
  }

  lemma TickEffectsStep(plans: seq<Plan>, issues: seq<Issue>, outcomes: seq<Outcome>, plan: Plan, x: Issue, o: Outcome)
    requires |plans| == |issues| == |outcomes|
    ensures TickEffects(plans + [plan], issues + [x], outcomes + [o])
         == TickEffects(plans, issues, outcomes).Then(StepEffects(plan, x, o))
  {
    assert (plans + [plan])[..|plans|] == plans;
    assert (issues + [x])[..|issues|] == issues;
    assert (outcomes + [o])[..|outcomes|] == outcomes;
  }

  lemma PlansOfSnoc(env: Env, plans: seq<Plan>, issues: seq<Issue>, x: Issue)
    requires PlansOf(env, plans, issues)
    ensures PlansOf(env, plans + [PlanFor(env, x)], issues + [x])
  {
    forall k | 0 <= k < |issues| + 1
      ensures (plans + [PlanFor(env, x)])[k] == PlanFor(env, (issues + [x])[k])
    {
      if k < |issues| {
        assert (issues + [x])[k] == issues[k];
        assert plans[k] == PlanFor(env, issues[k]);
      }
    }
  }

  /** One more run of the create flow extends the effects of the tick so far by its own. */
  lemma TickExtends(before: Effects, plans: seq<Plan>, processed: seq<Issue>, outcomes: seq<Outcome>,
                    plan: Plan, issue: Issue, o: Outcome)
    requires |plans| == |processed| == |outcomes|
    ensures before.Then(TickEffects(plans, processed, outcomes)).Then(StepEffects(plan, issue, o))
         == before.Then(TickEffects(plans + [plan], processed + [issue], outcomes + [o]))
  {
    TickEffectsStep(plans, processed, outcomes, plan, issue, o);
    ThenAssoc(before, TickEffects(plans, processed, outcomes), StepEffects(plan, issue, o));
  }

  /**
   * The loop of `check_jira_issues` (bot.py:39-44): the create flow for each
   * issue, in order, unless its key is among `created`.
   */
  method CreateMissing(store: Store, guild: Guild, issues: seq<Issue>, created: seq<string>, jiraUrl: string)
    returns (ghost processed: seq<Issue>, ghost plans: seq<Plan>, ghost outcomes: seq<Outcome>)
    requires guild.Valid()
    modifies store, guild
    ensures processed == ToCreate(issues, created)
    ensures PlansOf(EnvOf(store, guild, jiraUrl), plans, processed)
    ensures |outcomes| == |processed|
    ensures guild.Valid()
    ensures StateOf(store, guild) == old(StateOf(store, guild)).Then(TickEffects(plans, processed, outcomes))
  {
    processed, plans, outcomes := [], [], [];
    ghost var env := EnvOf(store, guild, jiraUrl);
    ghost var before := StateOf(store, guild);
    var i := 0;
    while i < |issues|
      invariant 0 <= i <= |issues|
      invariant processed == ToCreate(issues[..i], created)
      invariant PlansOf(env, plans, processed)
      invariant |outcomes| == |processed|
      invariant guild.Valid()
      invariant StateOf(store, guild) == before.Then(TickEffects(plans, processed, outcomes))
    {
      var issue := issues[i];
      if issue.key in created {
        assert processed == ToCreate(issues[..i + 1], created) by {
          ToCreateStep(issues, created, i);
        }
        i := i + 1;
        continue;
      }
      assert processed + [issue] == ToCreate(issues[..i + 1], created) by {
        ToCreateStep(issues, created, i);
      }
      ghost var o := CreateIssueChannel(store, guild, issue, jiraUrl);
      ghost var plan := PlanFor(env, issue);
      assert StateOf(store, guild) == before.Then(TickEffects(plans + [plan], processed + [issue], outcomes + [o])) by {
        TickExtends(before, plans, processed, outcomes, plan, issue, o);
      }
      assert PlansOf(env, plans + [plan], processed + [issue]) by {
        PlansOfSnoc(env, plans, processed, issue);
      }
      processed, plans, outcomes := processed + [issue], plans + [plan], outcomes + [o];
      i := i + 1;
    }
    assert issues[..i] == issues;
  }

  /**
   * `check_jira_issues`. `snapshot` is what the Jira filter returned,
   * `created` the keys the store read returned, `processed` the issues the
   * create flow ran for and `outcomes` how each run ended.
   */
  method CheckJiraIssues(search: SearchResult, store: Store, guild: Guild?, jiraUrl: string)
    returns (ghost snapshot: seq<Issue>, ghost created: seq<string>,
             ghost processed: seq<Issue>, ghost plans: seq<Plan>, ghost outcomes: seq<Outcome>)
    requires guild != null ==> guild.Valid()
    modifies store, guild
    ensures search.SearchRaised? ==> snapshot == []
    ensures search.Found? ==> AnnotatesAll(snapshot, Qualifying(search.issues))
    ensures created == StoredKeys(old(store.issues)) || created == []
    ensures processed == (if snapshot == [] || guild == null then [] else ToCreate(snapshot, created))
    ensures guild != null ==> PlansOf(EnvOf(store, guild, jiraUrl), plans, processed)
    ensures |outcomes| == |processed|
    ensures guild == null ==> store.issues == old(store.issues)
    ensures guild != null ==> guild.Valid()
    ensures guild != null ==> StateOf(store, guild) == old(StateOf(store, guild)).Then(TickEffects(plans, processed, outcomes))
  {
    var issues := GetCollaborativeActiveIssues(search);
    snapshot, created, processed, plans, outcomes := issues, [], [], [], [];
    if issues == [] {
      assert guild != null ==> StateOf(store, guild) == old(StateOf(store, guild)).Then(Effects([], [], []));
      return;
    }
    var createdKeys := store.GetCreatedIssues();
    created := createdKeys;
    if guild == null {
      return;
    }
    processed, plans, outcomes := CreateMissing(store, guild, issues, createdKeys, jiraUrl);
  }

  // ---------------------------------------------------------------- properties: channel name

  lemma {:induction false} NormalizeAt(s: string, i: nat)
    requires i < |s|
    ensures Normalize(s)[i] == if s[i] == ' ' then '-' else Lower(s[i])
    decreases |s|
  {
    if i < |s| - 1 {
      NormalizeAt(s[..|s| - 1], i);
    }
  }

  lemma NormalizeChars(s: string, c: char)
    requires c in Normalize(s)
    ensures !('A' <= c <= 'Z') && c != ' '
  {
    var i :| 0 <= i < |Normalize(s)| && Normalize(s)[i] == c;
    NormalizeAt(s, i);
  }

  /**
   * The name uses only lower-case ASCII letters, digits, `-` and `_`; it is
   * what is left of the lowered, dash-for-space raw name after deletions, so
   * it is no longer than the key, the dash and the first 20 summary characters.
   */
  lemma ChannelNameShape(key: string, summary: string)
    ensures forall c :: c in ChannelName(key, summary) ==>
              ('a' <= c <= 'z') || ('0' <= c <= '9') || c == '-' || c == '_'
    ensures IsSubseq(ChannelName(key, summary), RawName(key, summary))
    ensures |ChannelName(key, summary)| <= |key| + 1 + (if |summary| < 20 then |summary| else 20)
  {
    var raw := RawName(key, summary);
    forall c | c in ChannelName(key, summary)
      ensures ('a' <= c <= 'z') || ('0' <= c <= '9') || c == '-' || c == '_'
    {
      FilterMembership(raw, Allowed, c);
      NormalizeChars(key + "-" + Prefix(summary, 20), c);
    }
    FilterIsSubseq(raw, Allowed);
    SubseqLength(ChannelName(key, summary), raw);
  }

  /** Only disallowed characters are removed: every allowed one of the raw name survives. */
  lemma ChannelNameKeepsAllowed(key: string, summary: string, c: char)
    ensures c in ChannelName(key, summary) <==> c in RawName(key, summary) && Allowed(c)
  {
    FilterMembership(RawName(key, summary), Allowed, c);
  }

  /** Deriving a name from a derived name changes nothing. */
  lemma ChannelNameStable(key: string, summary: string)
    ensures Filter(Normalize(ChannelName(key, summary)), Allowed) == ChannelName(key, summary)
  {
    var name := ChannelName(key, summary);
    ChannelNameShape(key, summary);
    forall i | 0 <= i < |name|
      ensures Normalize(name)[i] == name[i]
    {
      assert name[i] in name;
      NormalizeAt(name, i);
    }
    assert Normalize(name) == name;
    FilterAllKept(name, Allowed);
  }

  // ---------------------------------------------------------------- properties: overwrites and mentions

  /**
   * The default role is denied, the bot is granted, every other entry is a
   * grant, and the members with an entry are the bot and the resolved ids.
   */
  lemma {:induction false} OverwritesExactly(me: nat, ids: seq<nat>)
    ensures DefaultRole in Overwrites(me, ids) && !Overwrites(me, ids)[DefaultRole]
    ensures Member(me) in Overwrites(me, ids) && Overwrites(me, ids)[Member(me)]
    ensures forall p :: p in Overwrites(me, ids) && p != DefaultRole ==> Overwrites(me, ids)[p]
    ensures forall p :: p in Overwrites(me, ids)
              <==> p == DefaultRole || p == Member(me) || (p.Member? && p.id in ids)
  {
    if ids != [] {
      var init := ids[..|ids| - 1];
      OverwritesExactly(me, init);
      assert ids == init + [ids[|ids| - 1]];
    }
  }

  /**
   * The collaborators are handled one at a time: what each contributes does
   * not depend on the others, so a collaborator that fails to resolve does
   * not stop the ones after it.
   */
  lemma {:induction false} ResolvedIdsConcat(mappings: seq<EmailMapping>, members: set<nat>, a: seq<string>, b: seq<string>)
    ensures ResolvedIds(mappings, members, a + b) == ResolvedIds(mappings, members, a) + ResolvedIds(mappings, members, b)
    decreases |b|
  {
    if b == [] {
      assert a + b == a;
    } else {
      var n := |b| - 1;
      var r := Resolve(mappings, members, b[n]);
      var last := if r.Some? then [r.value] else [];
      assert (a + b)[..|a + b| - 1] == a + b[..n];
      assert (a + b)[|a + b| - 1] == b[n];
      assert ResolvedIds(mappings, members, a + b) == ResolvedIds(mappings, members, a + b[..n]) + last;
      assert ResolvedIds(mappings, members, b) == ResolvedIds(mappings, members, b[..n]) + last;
      ResolvedIdsConcat(mappings, members, a, b[..n]);
      var x, y := ResolvedIds(mappings, members, a), ResolvedIds(mappings, members, b[..n]);
      assert x + y + last == x + (y + last);
    }
  }

  /**
   * A collaborator with no mapping, an empty id, an id `int()` rejects or a
   * failed member fetch contributes nothing; a resolving one contributes its
   * member id exactly once (one grant, one mention).
   */
  lemma ResolvedIdsOne(mappings: seq<EmailMapping>, members: set<nat>, email: string)
    ensures ResolvedIds(mappings, members, [email])
         == (var r := Resolve(mappings, members, email); if r.Some? then [r.value] else [])
  {
    assert [email][..0] == [];
  }

  /** Every collaborator that resolves contributes its member id. */
  lemma {:induction false} ResolvedIdsComplete(mappings: seq<EmailMapping>, members: set<nat>, emails: seq<string>, i: nat)
    requires i < |emails| && Resolve(mappings, members, emails[i]).Some?
    ensures Resolve(mappings, members, emails[i]).value in ResolvedIds(mappings, members, emails)
  {
    var n := |emails| - 1;
    if i < n {
      assert emails[..n][i] == emails[i];
      ResolvedIdsComplete(mappings, members, emails[..n], i);
    }
  }

  /** Every contributed member id comes from a collaborator that resolves to it. */
  lemma {:induction false} ResolvedIdsSound(mappings: seq<EmailMapping>, members: set<nat>, emails: seq<string>, id: nat)
      returns (i: nat)
    requires id in ResolvedIds(mappings, members, emails)
    ensures i < |emails| && Resolve(mappings, members, emails[i]) == Some(id)
  {
    var n := |emails| - 1;
    if id in ResolvedIds(mappings, members, emails[..n]) {
      i := ResolvedIdsSound(mappings, members, emails[..n], id);
      assert emails[..n][i] == emails[i];
    } else {
      i := n;
    }
  }

  /** A member id is granted and mentioned exactly when some collaborator resolves to it. */
  lemma ResolvedIdsExactly(mappings: seq<EmailMapping>, members: set<nat>, emails: seq<string>, id: nat)
    ensures id in ResolvedIds(mappings, members, emails)
        <==> exists i :: 0 <= i < |emails| && Resolve(mappings, members, emails[i]) == Some(id)
  {
    if id in ResolvedIds(mappings, members, emails) {
      var i := ResolvedIdsSound(mappings, members, emails, id);
    }
    if exists i :: 0 <= i < |emails| && Resolve(mappings, members, emails[i]) == Some(id) {
      var i :| 0 <= i < |emails| && Resolve(mappings, members, emails[i]) == Some(id);
      ResolvedIdsComplete(mappings, members, emails, i);
    }
  }

  /**
   * A resolved id is a guild member, reached through the store's mapping
   * for that e-mail; an e-mail without a mapping resolves to nothing.
   */
  lemma ResolveSound(mappings: seq<EmailMapping>, members: set<nat>, email: string)
    ensures Resolve(mappings, members, email).Some? ==>
              Resolve(mappings, members, email).value in members
              && exists d :: EmailMapping(email, d) in mappings && ParseInt(d) == Some(Resolve(mappings, members, email).value as int)
    ensures (forall m :: m in mappings ==> m.email != email) ==> Resolve(mappings, members, email) == None
  {
    LookupFirstMatch(mappings, email);
    if Resolve(mappings, members, email).Some? {
      var d := Lookup(mappings, email).value;
      var i :| 0 <= i < |mappings| && mappings[i] == EmailMapping(email, d);
      assert EmailMapping(email, d) in mappings;
    }
  }

  // ---------------------------------------------------------------- properties: announcement

  /** The announcement names the key, the full summary, the link, and the joined mentions. */
  lemma AnnouncementContents(key: string, summary: string, link: string, mentions: string)
    ensures IsInfix(key, Announcement(key, summary, link, mentions))
    ensures IsInfix(summary, Announcement(key, summary, link, mentions))
    ensures IsInfix(link, Announcement(key, summary, link, mentions))
    ensures IsInfix(mentions, Announcement(key, summary, link, mentions))
  {
    var m := Announcement(key, summary, link, mentions);
    var p0 := TaskLine;
    var p1 := p0 + key + ": ";
    var p2 := p1 + summary + LinkLine;
    var p3 := p2 + link + AssigneesLine;
    assert m == p3 + mentions + Closing;
    assert m[|p0|..|p0| + |key|] == key;
    assert OccursAt(key, m, |p0|);
    assert m[|p1|..|p1| + |summary|] == summary;
    assert OccursAt(summary, m, |p1|);
    assert m[|p2|..|p2| + |link|] == link;
    assert OccursAt(link, m, |p2|);
    assert m[|p3|..|p3| + |mentions|] == mentions;
    assert OccursAt(mentions, m, |p3|);
  }

  lemma {:induction false} MentionsAt(ids: seq<nat>, k: nat)
    requires k < |ids|
    ensures Mentions(ids)[k] == Mention(ids[k])
    decreases |ids|
  {
    if k < |ids| - 1 {
      MentionsAt(ids[..|ids| - 1], k);
    }
  }

  /** Every resolved collaborator is mentioned in the announcement of the issue. */
  lemma MentionedInAnnouncement(env: Env, issue: Issue, k: nat)
    requires k < |IdsFor(env, issue)|
    ensures IsInfix(Mention(IdsFor(env, issue)[k]), PlanFor(env, issue).announcement)
  {
    var ms := Mentions(IdsFor(env, issue));
    var joined := Join(ms, " ");
    MentionsAt(IdsFor(env, issue), k);
    JoinContains(ms, " ", k);
    AnnouncementContents(issue.key, issue.summary, Link(env.jiraUrl, issue.key), joined);
    InfixTransitive(ms[k], joined, PlanFor(env, issue).announcement);
  }

  /**
   * The channel grants exactly the bot and the resolved collaborators and
   * denies everyone else; the announcement names the issue and links it.
   */
  lemma PlanForShape(env: Env, issue: Issue, p: Principal)
    ensures (p in PlanFor(env, issue).overwrites)
        <==> (p == DefaultRole || p == Member(env.me)
              || (p.Member? && exists i :: 0 <= i < |issue.collaborators|
                                 && Resolve(env.mappings, env.members, issue.collaborators[i]) == Some(p.id)))
    ensures p in PlanFor(env, issue).overwrites ==> (PlanFor(env, issue).overwrites[p] <==> p != DefaultRole)
    ensures IsInfix(issue.key, PlanFor(env, issue).announcement)
    ensures IsInfix(Link(env.jiraUrl, issue.key), PlanFor(env, issue).announcement)
  {
    var ids := IdsFor(env, issue);
    OverwritesExactly(env.me, ids);
    if p.Member? {
      ResolvedIdsExactly(env.mappings, env.members, issue.collaborators, p.id);
    }
    AnnouncementContents(issue.key, issue.summary, Link(env.jiraUrl, issue.key), Join(Mentions(ids), " "));
  }

  // ---------------------------------------------------------------- properties: the tick

  /**
   * The create flow runs for exactly the snapshot issues whose key was not
   * read from the store, in snapshot order; a stored key is never created again.
   */
  lemma ToCreateExactly(issues: seq<Issue>, created: seq<string>, x: Issue)
    ensures x in ToCreate(issues, created) <==> x in issues && x.key !in created
    ensures IsSubseq(ToCreate(issues, created), issues)
  {
    FilterMembership(issues, NotStored(created), x);
    FilterIsSubseq(issues, NotStored(created));
  }

  /**
   * When the store read fails it yields no keys, and the tick hands every
   * snapshot issue to the create flow, including those already stored.
   */
  lemma StoreReadFallback(issues: seq<Issue>)
    ensures ToCreate(issues, []) == issues
  {
    FilterAllKept(issues, NotStored([]));
  }

  /** A channel made by one flow of the tick is among the channels the tick made. */
  lemma {:induction false} ChannelInTick(plans: seq<Plan>, issues: seq<Issue>, outcomes: seq<Outcome>, k: nat, c: Channel)
    requires |plans| == |issues| == |outcomes| && k < |issues|
    requires c in StepEffects(plans[k], issues[k], outcomes[k]).channels
    ensures c in TickEffects(plans, issues, outcomes).channels
  {
    var n := |issues| - 1;
    var prev := TickEffects(plans[..n], issues[..n], outcomes[..n]).channels;
    var last := StepEffects(plans[n], issues[n], outcomes[n]).channels;
    assert TickEffects(plans, issues, outcomes).channels == prev + last;
    if k < n {
      assert plans[..n][k] == plans[k] && issues[..n][k] == issues[k] && outcomes[..n][k] == outcomes[k];
      ChannelInTick(plans[..n], issues[..n], outcomes[..n], k, c);
    }
  }

  /** A message posted by one flow of the tick is among the posts the tick made. */
  lemma {:induction false} PostInTick(plans: seq<Plan>, issues: seq<Issue>, outcomes: seq<Outcome>, k: nat, p: Post)
    requires |plans| == |issues| == |outcomes| && k < |issues|
    requires p in StepEffects(plans[k], issues[k], outcomes[k]).posts
    ensures p in TickEffects(plans, issues, outcomes).posts
  {
    var n := |issues| - 1;
    var prev := TickEffects(plans[..n], issues[..n], outcomes[..n]).posts;
    var last := StepEffects(plans[n], issues[n], outcomes[n]).posts;
    assert TickEffects(plans, issues, outcomes).posts == prev + last;
    if k < n {
      assert plans[..n][k] == plans[k] && issues[..n][k] == issues[k] && outcomes[..n][k] == outcomes[k];
      PostInTick(plans[..n], issues[..n], outcomes[..n], k, p);
    }
  }

  /** Every record the tick saved comes from a processed issue whose flow ended in `Saved`. */
  lemma {:induction false} RecordFromSaved(plans: seq<Plan>, issues: seq<Issue>, outcomes: seq<Outcome>, r: IssueRecord)
    requires |plans| == |issues| == |outcomes| && r in TickEffects(plans, issues, outcomes).rows
    ensures exists j :: 0 <= j < |issues| && outcomes[j].Saved?
              && r == IssueRecord(issues[j].key, DecimalString(outcomes[j].channelId), issues[j].summary)
  {
    var n := |issues| - 1;
    var prev := TickEffects(plans[..n], issues[..n], outcomes[..n]).rows;
    var step := StepEffects(plans[n], issues[n], outcomes[n]).rows;
    assert TickEffects(plans, issues, outcomes).rows == prev + step;
    if r in prev {
      RecordFromSaved(plans[..n], issues[..n], outcomes[..n], r);
      var j :| 0 <= j < n && outcomes[..n][j].Saved?
              && r == IssueRecord(issues[..n][j].key, DecimalString(outcomes[..n][j].channelId), issues[..n][j].summary);
      assert issues[..n][j] == issues[j] && outcomes[..n][j] == outcomes[j];
    } else {
      assert outcomes[n].Saved?;
    }
  }

  /**
   * The store is written only after the channel was created and the
   * announcement sent: every record the tick saved belongs to a processed
   * issue whose channel and announcement the same tick produced, and the
   * stored channel id reads back as that channel's id.
   */
  lemma RecordFollowsAnnouncement(plans: seq<Plan>, issues: seq<Issue>, outcomes: seq<Outcome>, r: IssueRecord)
    requires |plans| == |issues| == |outcomes| && r in TickEffects(plans, issues, outcomes).rows
    ensures exists j :: 0 <= j < |issues| && outcomes[j].Saved?
              && r == IssueRecord(issues[j].key, DecimalString(outcomes[j].channelId), issues[j].summary)
              && Channel(outcomes[j].channelId, plans[j].name, plans[j].overwrites)
                   in TickEffects(plans, issues, outcomes).channels
              && Post(outcomes[j].channelId, plans[j].announcement) in TickEffects(plans, issues, outcomes).posts
              && ParseInt(r.channelId) == Some(outcomes[j].channelId as int)
  {
    RecordFromSaved(plans, issues, outcomes, r);
    var j :| 0 <= j < |issues| && outcomes[j].Saved?
            && r == IssueRecord(issues[j].key, DecimalString(outcomes[j].channelId), issues[j].summary);
    var id := outcomes[j].channelId;
    var plan := plans[j];
    ChannelInTick(plans, issues, outcomes, j, Channel(id, plan.name, plan.overwrites));
    PostInTick(plans, issues, outcomes, j, Post(id, plan.announcement));
    DecimalRoundTrip(id);
  }

  /** When every flow of the tick saved, the tick stored exactly the processed keys, in order. */
  lemma {:induction false} AllSavedKeys(plans: seq<Plan>, issues: seq<Issue>, outcomes: seq<Outcome>)
    requires |plans| == |issues| == |outcomes|
    requires forall o :: o in outcomes ==> o.Saved?
    ensures StoredKeys(TickEffects(plans, issues, outcomes).rows) == IssueKeys(issues)
  {
    if issues != [] {
      var n := |issues| - 1;
      var prevRows := TickEffects(plans[..n], issues[..n], outcomes[..n]).rows;
      var stepRows := StepEffects(plans[n], issues[n], outcomes[n]).rows;
      assert TickEffects(plans, issues, outcomes).rows == prevRows + stepRows;
      assert outcomes[n] in outcomes;
      assert stepRows == [IssueRecord(issues[n].key, DecimalString(outcomes[n].channelId), issues[n].summary)];
      assert forall o :: o in outcomes[..n] ==> o in outcomes;
      AllSavedKeys(plans[..n], issues[..n], outcomes[..n]);
      StoredKeysConcat(prevRows, stepRows);
      assert IssueKeys(issues) == IssueKeys(issues[..n]) + [issues[n].key];
    }
  }

  /** A key the tick stored belongs to a processed issue whose flow saved. */
  lemma SavedKeyFrom(plans: seq<Plan>, issues: seq<Issue>, outcomes: seq<Outcome>, k: string)
    requires |plans| == |issues| == |outcomes|
    requires k in StoredKeys(TickEffects(plans, issues, outcomes).rows)
    ensures exists j :: 0 <= j < |issues| && outcomes[j].Saved? && issues[j].key == k
  {
    var rows := TickEffects(plans, issues, outcomes).rows;
    var i :| 0 <= i < |rows| && rows[i].issueKey == k;
    RecordFromSaved(plans, issues, outcomes, rows[i]);
  }

  /** After a tick whose flows all saved, every key of its snapshot is stored. */
  lemma SnapshotKeysStored(plans: seq<Plan>, snapshot: seq<Issue>, rows0: seq<IssueRecord>,
                           created: seq<string>, outcomes: seq<Outcome>, k: string)
    requires forall k :: k in created ==> k in StoredKeys(rows0)
    requires |plans| == |outcomes| == |ToCreate(snapshot, created)|
    requires forall o :: o in outcomes ==> o.Saved?
    requires k in IssueKeys(snapshot)
    ensures k in StoredKeys(rows0 + TickEffects(plans, ToCreate(snapshot, created), outcomes).rows)
  {
    var processed := ToCreate(snapshot, created);
    var rows1 := TickEffects(plans, processed, outcomes).rows;
    AllSavedKeys(plans, processed, outcomes);
    StoredKeysConcat(rows0, rows1);
    var j :| 0 <= j < |snapshot| && IssueKeys(snapshot)[j] == k;
    var y := snapshot[j];
    ToCreateExactly(snapshot, created, y);
    if y.key !in created {
      var m :| 0 <= m < |processed| && processed[m] == y;
      assert IssueKeys(processed)[m] == y.key;
    }
  }

  /**
   * Idempotence: if every create flow of a tick ran to a successful save,
   * a later tick whose store read succeeds hands no issue to the create
   * flow, as long as its snapshot has no key the first one lacked (the
   * collaborators' order may differ between the two). `created` may be the
   * stored keys or the empty fallback.
   */
  lemma SecondTickCreatesNothing(plans: seq<Plan>, snapshot: seq<Issue>, snapshot2: seq<Issue>,
                                 rows0: seq<IssueRecord>, created: seq<string>, outcomes: seq<Outcome>)
    requires forall k :: k in created ==> k in StoredKeys(rows0)
    requires forall k :: k in IssueKeys(snapshot2) ==> k in IssueKeys(snapshot)
    requires |plans| == |outcomes| == |ToCreate(snapshot, created)|
    requires forall o :: o in outcomes ==> o.Saved?
    ensures ToCreate(snapshot2, StoredKeys(rows0 + TickEffects(plans, ToCreate(snapshot, created), outcomes).rows)) == []
  {
    var keys := StoredKeys(rows0 + TickEffects(plans, ToCreate(snapshot, created), outcomes).rows);
    forall x | x in snapshot2
      ensures !NotStored(keys)(x)
    {
      var i :| 0 <= i < |snapshot2| && snapshot2[i] == x;
      assert IssueKeys(snapshot2)[i] == x.key;
      SnapshotKeysStored(plans, snapshot, rows0, created, outcomes, x.key);
    }
    FilterNoneKept(snapshot2, NotStored(keys));
  }

  /** Convergence: from an empty store, a tick whose flows all saved stores exactly the snapshot's keys. */
  lemma ConvergesFromEmpty(plans: seq<Plan>, snapshot: seq<Issue>, created: seq<string>, outcomes: seq<Outcome>)
    requires created == StoredKeys([]) || created == []
    requires |plans| == |outcomes| == |ToCreate(snapshot, created)|
    requires forall o :: o in outcomes ==> o.Saved?
    ensures StoredKeys(TickEffects(plans, ToCreate(snapshot, created), outcomes).rows) == IssueKeys(snapshot)
  {
    assert created == [];
    StoreReadFallback(snapshot);
    AllSavedKeys(plans, snapshot, outcomes);
  }

  /**
   * The at-least-once window: a flow that created the channel but did not
   * get its record saved leaves that channel behind, and the next tick
   * (with the same snapshot, keys unique) hands the issue to the create
   * flow again, so it gets a second channel.
   */
  lemma PartialFailureRecreates(plans: seq<Plan>, snapshot: seq<Issue>, rows0: seq<IssueRecord>,
                                created: seq<string>, outcomes: seq<Outcome>, k: nat)
    requires |plans| == |outcomes| == |ToCreate(snapshot, created)| && k < |outcomes|
    requires !outcomes[k].Saved?
    requires ToCreate(snapshot, created)[k].key !in StoredKeys(rows0)
    requires forall j :: 0 <= j < |outcomes| && j != k ==> ToCreate(snapshot, created)[j].key != ToCreate(snapshot, created)[k].key
    ensures !outcomes[k].CreateRaised? ==>
              Channel(outcomes[k].channelId, plans[k].name, plans[k].overwrites)
                in TickEffects(plans, ToCreate(snapshot, created), outcomes).channels
    ensures ToCreate(snapshot, created)[k]
              in ToCreate(snapshot, StoredKeys(rows0 + TickEffects(plans, ToCreate(snapshot, created), outcomes).rows))
  {
    var processed := ToCreate(snapshot, created);
    var x := processed[k];
    var rows1 := TickEffects(plans, processed, outcomes).rows;
    if !outcomes[k].CreateRaised? {
      var c := Channel(outcomes[k].channelId, plans[k].name, plans[k].overwrites);
      ChannelInTick(plans, processed, outcomes, k, c);
    }
    StoredKeysConcat(rows0, rows1);
    if x.key in StoredKeys(rows1) {
      SavedKeyFrom(plans, processed, outcomes, x.key);
    }
    assert x in processed;
    ToCreateExactly(snapshot, created, x);
    ToCreateExactly(snapshot, StoredKeys(rows0 + rows1), x);
  }
}
