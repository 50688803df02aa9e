/** The replanner's drafts on a root issue: when a draft may post a proposal, and
    what the resulting comment history looks like over every interleaving. */
module Replan {
  import opened Wrappers

  const PROPOSAL := "🔁 重规划建议："
  const BLOCKED := "🛑 重规划建议被拒绝："

  // ----- Recognising the replanner's own comments -----

  datatype Comment = Comment(byAdmin: bool, system: bool, content: string)

  /** Text behind the first space, if there is one. */
  function Behind(s: string): Option<string> {
    if s == [] then None
    else if s[0] == ' ' then Some(s[1..])
    else Behind(s[1..])
  }

  /** Drop one leading `@<id> `. */
  function StripAssistedMention(content: string): string {
    if content != [] && content[0] == '@' && Behind(content[1..]).Some?
    then Behind(content[1..]).value
    else content
  }

  predicate IsProposal(c: Comment) { c.system && PROPOSAL <= StripAssistedMention(c.content) }

  predicate IsMarked(c: Comment) {
    IsProposal(c) || (c.system && BLOCKED <= StripAssistedMention(c.content))
  }

  /** The newest replanner comment is newer than the newest admin comment. */
  ghost predicate Pending(comments: seq<Comment>) {
    exists i :: 0 <= i < |comments| && IsMarked(comments[i]) && forall j :: i <= j < |comments| ==> !comments[j].byAdmin
  }

  function Proposals(comments: seq<Comment>): nat {
    if comments == [] then 0
    else Proposals(comments[..|comments| - 1]) + if IsProposal(comments[|comments| - 1]) then 1 else 0
  }

  /** The scan of a root's comments: whether a proposal is waiting for a human,
      and the number of the next one. */
  method ProposalState(comments: seq<Comment>) returns (pending: bool, version: nat)
    ensures pending <==> Pending(comments)
    ensures version == Proposals(comments) + 1
  {
    hide IsProposal, IsMarked;
    var lastReplan: Option<nat> := None;
    var lastAdmin: Option<nat> := None;
    var count: nat := 0;
    for i := 0 to |comments|
      invariant count == Proposals(comments[..i])
      invariant LastOf(comments, i, lastReplan, c => IsMarked(c))
      invariant LastOf(comments, i, lastAdmin, (c: Comment) => c.byAdmin)
    {
      var c := comments[i];
      assert comments[..i + 1][..i] == comments[..i];
      if IsMarked(c) {
        lastReplan := Some(i);
      }
      if IsProposal(c) {
        count := count + 1;
      }
      if c.byAdmin {
        lastAdmin := Some(i);
      }
    }
    assert comments[..|comments|] == comments;
    pending := lastReplan.Some? && (lastAdmin.None? || lastReplan.value > lastAdmin.value);
    version := count + 1;
    if pending {
      assert IsMarked(comments[lastReplan.value]);
    }
  }

  /** `last` is the last index below `n` whose comment satisfies `p`. */
  ghost predicate LastOf(comments: seq<Comment>, n: nat, last: Option<nat>, p: Comment -> bool)
    requires n <= |comments|
  {
    match last
    case None => forall j :: 0 <= j < n ==> !p(comments[j])
    case Some(i) => i < n && p(comments[i]) && forall j :: i < j < n ==> !p(comments[j])
  }

  // ----- The mention prefix and its removal -----

  /** The author of the root issue. */
  datatype Creator = Creator(admin: bool, id: string)

  function Mention(creator: Creator, assisted: bool): string {
    if creator.admin && assisted then ['@'] + (creator.id + [' ']) else []
  }

  /** The comment a draft posts; `body` is what follows the prefix. */
  function ProposalComment(creator: Creator, assisted: bool, body: string): Comment {
    Comment(false, true, Mention(creator, assisted) + (PROPOSAL + body))
  }

  function BlockedComment(body: string): Comment { Comment(false, true, BLOCKED + body) }

  /** Removing the mention undoes adding it. */
  predicate MentionUndone(creator: Creator) {
    creator.admin ==> Behind(creator.id).None? || PROPOSAL <= Behind(creator.id).value
  }

  lemma {:induction false} BehindOfSum(id: string, x: string)
    ensures Behind(id + ([' '] + x)) == Some(if Behind(id).None? then x else Behind(id).value + ([' '] + x))
  {
    var s := id + ([' '] + x);
    if id == [] {
      assert s == [' '] + x && s[1..] == x;
    } else {
      assert s[0] == id[0] && s[1..] == id[1..] + ([' '] + x);
      BehindOfSum(id[1..], x);
    }
  }

  lemma ShortTail(tail: string, x: string)
    requires PROPOSAL <= x && |tail| < |PROPOSAL|
    ensures !(PROPOSAL <= tail + ([' '] + x))
  {
    var s := tail + ([' '] + x);
    assert s[|tail|] == ' ';
    assert |tail| == 1 ==> s[2] == x[0] == PROPOSAL[0];
  }

  lemma PrefixOfSum(tail: string, x: string)
    requires PROPOSAL <= x
    ensures PROPOSAL <= tail + ([' '] + x) <==> PROPOSAL <= tail
  {
    if |tail| < |PROPOSAL| {
      ShortTail(tail, x);
    } else {
      assert (tail + ([' '] + x))[..|PROPOSAL|] == tail[..|PROPOSAL|];
    }
  }

  /** A posted proposal is recognised unless it mentions an admin whose id has a
      space, and even then if the id itself goes on with the proposal prefix. */
  lemma ProposalRecognised(creator: Creator, assisted: bool, body: string)
    ensures IsProposal(ProposalComment(creator, assisted, body)) <==> !assisted || MentionUndone(creator)
  {
    var x := PROPOSAL + body;
    var c := ProposalComment(creator, assisted, body);
    assert PROPOSAL <= x;
    if creator.admin && assisted {
      assert c.content == ['@'] + (creator.id + ([' '] + x));
      assert c.content[1..] == creator.id + ([' '] + x);
      BehindOfSum(creator.id, x);
      if Behind(creator.id).Some? {
        PrefixOfSum(Behind(creator.id).value, x);
      }
    } else {
      assert c.content == x && x[0] == PROPOSAL[0];
    }
  }

  lemma BlockedRecognised(body: string)
    ensures IsMarked(BlockedComment(body)) && !IsProposal(BlockedComment(body))
  {
    var s := BLOCKED + body;
    assert s[0] == BLOCKED[0] && BLOCKED <= s;
  }

  // ----- The draft tasks as a transition system -----

  type Root = int

  /** A draft task: it holds the root's in-flight claim in every stage but `Over`. */
  datatype Draft = Claimed(root: Root) | Writing(root: Root, version: nat) | Executing(root: Root, version: nat) | Over

  /** History: where each proposal stands among the comments, and its number. */
  datatype Posted = Posted(at: nat, version: nat)

  datatype State = State(
    comments: map<Root, seq<Comment>>,
    inflight: set<Root>,
    drafts: map<nat, Draft>,
    history: map<Root, seq<Posted>>)

  datatype Event =
    | Start(t: nat, root: Root)
    | ReadState(t: nat)
    | Post(t: nat, assisted: bool, body: string)
    | Fail(t: nat)
    | Refuse(t: nat, body: string)
    | Execute(t: nat, body: string)
    | Others(root: Root, comment: Comment)
    | Restart

  function Init(): State { State(map[], {}, map[], map[]) }

  function Comments(s: State, r: Root): seq<Comment> {
    if r in s.comments then s.comments[r] else []
  }

  function History(s: State, r: Root): seq<Posted> {
    if r in s.history then s.history[r] else []
  }

  const DIFF := "🔁 重规划执行差异"

  ghost predicate Enabled(s: State, e: Event) {
    match e
    case Start(t, _) => t !in s.drafts
    case ReadState(t) => t in s.drafts && s.drafts[t].Claimed?
    case Post(t, _, _) => t in s.drafts && s.drafts[t].Writing?
    case Fail(t) => t in s.drafts && !s.drafts[t].Over?
    case Refuse(t, _) => t in s.drafts && s.drafts[t].Executing?
    case Execute(t, _) => t in s.drafts && s.drafts[t].Executing?
    case Others(_, c) => !IsMarked(c)
    case Restart => true
  }

  function AddComment(s: State, r: Root, c: Comment): State {
    s.(comments := s.comments[r := Comments(s, r) + [c]])
  }

  /** The task ends and the guard gives the claim back. */
  function Finish(s: State, t: nat): State
    requires t in s.drafts && !s.drafts[t].Over?
  {
    s.(inflight := s.inflight - {s.drafts[t].root}, drafts := s.drafts[t := Over])
  }

  ghost function Apply(creators: Root -> Creator, s: State, e: Event): State
    requires Enabled(s, e)
  {
    match e
    case Start(t, r) =>
      if r in s.inflight then s.(drafts := s.drafts[t := Over])
      else s.(inflight := s.inflight + {r}, drafts := s.drafts[t := Claimed(r)])
    case ReadState(t) =>
      var r := s.drafts[t].root;
      if Pending(Comments(s, r)) then Finish(s, t)
      else s.(drafts := s.drafts[t := Writing(r, Proposals(Comments(s, r)) + 1)])
    case Post(t, assisted, body) =>
      var r, v := s.drafts[t].root, s.drafts[t].version;
      var posted := AddComment(s, r, ProposalComment(creators(r), assisted, body))
        .(history := s.history[r := History(s, r) + [Posted(|Comments(s, r)|, v)]]);
      if assisted then Finish(posted, t)
      else posted.(drafts := s.drafts[t := Executing(r, v)])
    case Fail(t) => Finish(s, t)
    case Refuse(t, body) => Finish(AddComment(s, s.drafts[t].root, BlockedComment(body)), t)
    case Execute(t, body) => Finish(AddComment(s, s.drafts[t].root, Comment(false, true, DIFF + body)), t)
    case Others(r, c) => AddComment(s, r, c)
    case Restart => s.(inflight := {}, drafts := map t | t in s.drafts :: Over)
  }

  ghost function Step(creators: Root -> Creator, s: State, e: Event): State {
    if Enabled(s, e) then Apply(creators, s, e) else s
  }

  ghost function Run(creators: Root -> Creator, es: seq<Event>): State {
    if es == [] then Init() else Step(creators, Run(creators, es[..|es| - 1]), es[|es| - 1])
  }

  // ----- What the history should look like -----

  ghost predicate AdminBetween(comments: seq<Comment>, i: nat, j: nat) {
    exists k :: i < k < j && k < |comments| && comments[k].byAdmin
  }

  /** Numbers 1, 2, 3, ... and an admin comment between any two in a row. */
  ghost predicate Orderly(h: seq<Posted>, comments: seq<Comment>) {
    && (forall k :: 0 <= k < |h| ==> h[k].version == k + 1)
    && (forall k :: 0 < k < |h| ==> AdminBetween(comments, h[k - 1].at, h[k].at))
  }

  // ----- Invariant for one root -----

  /** Tasks own their roots: no two live drafts on one root. */
  ghost predicate Exclusive(s: State) {
    && (forall t :: t in s.drafts && !s.drafts[t].Over? ==> s.drafts[t].root in s.inflight)
    && (forall t, u :: t in s.drafts && u in s.drafts && t != u && !s.drafts[t].Over? && !s.drafts[u].Over? ==>
      s.drafts[t].root != s.drafts[u].root)
  }

  /** The scan counts exactly the posted proposals, and the last of them is a
      marker in the comments. */
  ghost predicate Faithful(s: State, r: Root) {
    var h, c := History(s, r), Comments(s, r);
    && Proposals(c) == |h|
    && (h != [] ==> h[|h| - 1].at < |c| && IsMarked(c[h[|h| - 1].at]) && !c[h[|h| - 1].at].byAdmin)
  }

  ghost predicate WritingOk(s: State, t: nat)
    requires t in s.drafts && s.drafts[t].Writing?
  {
    var c := Comments(s, s.drafts[t].root);
    s.drafts[t].version == Proposals(c) + 1 && !Pending(c)
  }

  ghost predicate Inv(s: State, r: Root) {
    && Exclusive(s)
    && Faithful(s, r)
    && Orderly(History(s, r), Comments(s, r))
    && (forall t :: t in s.drafts && s.drafts[t].Writing? && s.drafts[t].root == r ==> WritingOk(s, t))
  }

  // ----- Steps -----

  lemma StepKeepsExclusive(creators: Root -> Creator, s: State, e: Event)
    requires Exclusive(s) && Enabled(s, e)
    ensures Exclusive(Apply(creators, s, e))
  {
    hide Pending, Proposals, IsMarked, ProposalComment, BlockedComment, Comments, History;
  }

  lemma PendingSnoc(cs: seq<Comment>, c: Comment)
    ensures !IsMarked(c) && !Pending(cs) ==> !Pending(cs + [c])
    ensures Proposals(cs + [c]) == Proposals(cs) + if IsProposal(c) then 1 else 0
  {
    hide IsMarked, IsProposal;
    assert (cs + [c])[..|cs|] == cs;
    if !IsMarked(c) && Pending(cs + [c]) {
      var i :| 0 <= i < |cs + [c]| && IsMarked((cs + [c])[i]) && forall j :: i <= j < |cs + [c]| ==>
        !(cs + [c])[j].byAdmin;
      assert (cs + [c])[i] == cs[i];
      forall j | i <= j < |cs| ensures !cs[j].byAdmin {
        assert (cs + [c])[j] == cs[j];
      }
    }
  }

  /** A marked, system-authored comment after which nothing is pending has an
      admin comment behind it. */
  lemma AdminAfter(cs: seq<Comment>, i: nat)
    requires i < |cs| && IsMarked(cs[i]) && !cs[i].byAdmin && !Pending(cs)
    ensures AdminBetween(cs, i, |cs|)
  {
    hide IsMarked;
  }

  lemma OrderlyGrows(h: seq<Posted>, cs: seq<Comment>, c: Comment)
    requires Orderly(h, cs)
    ensures Orderly(h, cs + [c])
  {
    forall k | 0 < k < |h| ensures AdminBetween(cs + [c], h[k - 1].at, h[k].at) {
      var x :| h[k - 1].at < x < h[k].at && x < |cs| && cs[x].byAdmin;
      assert (cs + [c])[x] == cs[x];
    }
  }

  /** One more proposal on a history in order. */
  lemma OrderlyPost(h: seq<Posted>, cs: seq<Comment>, c: Comment)
    requires Orderly(h, cs) && !Pending(cs) && Proposals(cs) == |h|
    requires h != [] ==> h[|h| - 1].at < |cs| && IsMarked(cs[h[|h| - 1].at]) && !cs[h[|h| - 1].at].byAdmin
    ensures Orderly(h + [Posted(|cs|, |h| + 1)], cs + [c])
  {
    hide IsMarked, Pending, AdminBetween, Orderly, Proposals;
    OrderlyGrows(h, cs, c);
    if h != [] {
      AdminAfter(cs, h[|h| - 1].at);
      BetweenGrows(cs, c, h[|h| - 1].at);
    }
    OrderlySnoc(h, cs + [c], Posted(|cs|, |h| + 1));
  }

  lemma OrderlySnoc(h: seq<Posted>, cs: seq<Comment>, p: Posted)
    requires Orderly(h, cs) && p.version == |h| + 1
    requires h != [] ==> AdminBetween(cs, h[|h| - 1].at, p.at)
    ensures Orderly(h + [p], cs)
  {
    hide AdminBetween;
    var g := h + [p];
    forall k | 0 < k < |g| ensures AdminBetween(cs, g[k - 1].at, g[k].at) {
      assert g[k - 1] == h[k - 1];
    }
  }

  lemma BetweenGrows(cs: seq<Comment>, c: Comment, i: nat)
    requires AdminBetween(cs, i, |cs|)
    ensures AdminBetween(cs + [c], i, |cs|)
  {
    var x :| i < x < |cs| && cs[x].byAdmin;
    assert (cs + [c])[x] == cs[x];
  }

  /** Root `r` sees the events of its own drafts and comments only. */
  predicate Touches(s: State, e: Event, r: Root) {
    match e
    case Start(_, _) => false
    case ReadState(_) => false
    case Post(t, _, _) => t in s.drafts && !s.drafts[t].Over? && s.drafts[t].root == r
    case Fail(_) => false
    case Refuse(t, _) => t in s.drafts && !s.drafts[t].Over? && s.drafts[t].root == r
    case Execute(t, _) => t in s.drafts && !s.drafts[t].Over? && s.drafts[t].root == r
    case Others(q, _) => q == r
    case Restart => false
  }

  lemma Untouched(creators: Root -> Creator, s: State, e: Event, r: Root)
    requires Enabled(s, e) && !Touches(s, e, r)
    ensures Comments(Apply(creators, s, e), r) == Comments(s, r) && History(Apply(creators, s, e), r) == History(s, r)
  {
    hide Pending, Proposals, IsMarked, ProposalComment, BlockedComment;
  }

  /** The comment a touching event adds. */
  function Added(creators: Root -> Creator, s: State, e: Event, r: Root): Comment
    requires Touches(s, e, r)
  {
    match e
    case Post(_, assisted, body) => ProposalComment(creators(r), assisted, body)
    case Refuse(_, body) => BlockedComment(body)
    case Execute(_, body) => Comment(false, true, DIFF + body)
    case Others(_, c) => c
  }

  lemma Touched(creators: Root -> Creator, s: State, e: Event, r: Root)
    requires Enabled(s, e) && Touches(s, e, r)
    ensures Comments(Apply(creators, s, e), r) == Comments(s, r) + [Added(creators, s, e, r)]
    ensures History(Apply(creators, s, e), r) ==
      if e.Post? then History(s, r) + [Posted(|Comments(s, r)|, s.drafts[e.t].version)] else History(s, r)
  {
    hide Pending, Proposals, IsMarked, ProposalComment, BlockedComment;
  }

  /** A draft that is writing after a step either just read the comments or was
      writing before. */
  lemma WritingFrom(creators: Root -> Creator, s: State, e: Event, t: nat)
    requires Enabled(s, e)
    requires t in Apply(creators, s, e).drafts && Apply(creators, s, e).drafts[t].Writing?
    ensures t in s.drafts
    ensures e == ReadState(t) || (s.drafts[t] == Apply(creators, s, e).drafts[t] && !(e.Post? && e.t == t))
    ensures e == ReadState(t) ==>
      && s.drafts[t].Claimed? && !Pending(Comments(s, s.drafts[t].root))
      && Apply(creators, s, e).drafts[t] == Writing(s.drafts[t].root, Proposals(Comments(s, s.drafts[t].root)) + 1)
  {
    hide Pending, Proposals, IsMarked, ProposalComment, BlockedComment, Comments, History;
  }

  lemma DiffIsUnmarked(body: string)
    ensures !IsMarked(Comment(false, true, DIFF + body))
  {
    var s := DIFF + body;
    assert s[0] == DIFF[0] && s[5] == DIFF[5];
    assert PROPOSAL[5] != DIFF[5] && BLOCKED[0] != DIFF[0];
  }

  /** Everybody but a live draft on the root itself adds unmarked comments only. */
  lemma AddedUnmarked(creators: Root -> Creator, s: State, e: Event, r: Root)
    requires Enabled(s, e) && Touches(s, e, r) && !e.Post? && !e.Refuse?
    ensures !IsMarked(Added(creators, s, e, r)) && !IsProposal(Added(creators, s, e, r))
  {
    if e.Execute? {
      DiffIsUnmarked(e.body);
    }
  }

  lemma StepKeepsWriting(creators: Root -> Creator, s: State, e: Event, r: Root, t: nat)
    requires Inv(s, r) && Enabled(s, e)
    requires t in Apply(creators, s, e).drafts
    requires Apply(creators, s, e).drafts[t].Writing? && Apply(creators, s, e).drafts[t].root == r
    ensures WritingOk(Apply(creators, s, e), t)
  {
    hide Pending, Proposals, IsMarked, IsProposal, Orderly, Faithful;
    WritingFrom(creators, s, e, t);
    if Touches(s, e, r) {
      assert WritingOk(s, t);
      assert !e.Post? && !e.Refuse?;
      Touched(creators, s, e, r);
      AddedUnmarked(creators, s, e, r);
      PendingSnoc(Comments(s, r), Added(creators, s, e, r));
    } else {
      Untouched(creators, s, e, r);
    }
    hide Apply, Enabled, Exclusive, Added;
  }

  lemma StepKeepsHistory(creators: Root -> Creator, s: State, e: Event, r: Root)
    requires Inv(s, r) && Enabled(s, e) && MentionUndone(creators(r))
    ensures Faithful(Apply(creators, s, e), r)
    ensures Orderly(History(Apply(creators, s, e), r), Comments(Apply(creators, s, e), r))
  {
    hide Pending, Proposals, IsMarked, IsProposal, Orderly, Exclusive, ProposalComment, BlockedComment;
    var h, c := History(s, r), Comments(s, r);
    if Touches(s, e, r) {
      Touched(creators, s, e, r);
      var add := Added(creators, s, e, r);
      AddedKind(creators, s, e, r);
      PendingSnoc(c, add);
      if e.Post? {
        assert WritingOk(s, e.t);
        hide Apply;
        OrderlyPost(h, c, add);
      } else {
        hide Apply;
        OrderlyGrows(h, c, add);
      }
    } else {
      Untouched(creators, s, e, r);
      hide Apply;
    }
  }

  lemma AddedKind(creators: Root -> Creator, s: State, e: Event, r: Root)
    requires Enabled(s, e) && Touches(s, e, r) && MentionUndone(creators(r))
    ensures IsProposal(Added(creators, s, e, r)) <==> e.Post?
    ensures e.Post? ==> IsMarked(Added(creators, s, e, r)) && !Added(creators, s, e, r).byAdmin
  {
    if e.Post? {
      ProposalRecognised(creators(r), e.assisted, e.body);
    } else if e.Refuse? {
      BlockedRecognised(e.body);
    } else {
      AddedUnmarked(creators, s, e, r);
    }
  }

  lemma StepKeepsInv(creators: Root -> Creator, s: State, e: Event, r: Root)
    requires Inv(s, r) && Enabled(s, e) && MentionUndone(creators(r))
    ensures Inv(Apply(creators, s, e), r)
  {
    StepKeepsExclusive(creators, s, e);
    StepKeepsHistory(creators, s, e, r);
    var n := Apply(creators, s, e);
    forall t | t in n.drafts && n.drafts[t].Writing? && n.drafts[t].root == r ensures WritingOk(n, t) {
      StepKeepsWriting(creators, s, e, r, t);
    }
    hide *;
    assert Inv(n, r);
  }

  lemma {:induction false} RunKeepsInv(creators: Root -> Creator, es: seq<Event>, r: Root)
    requires MentionUndone(creators(r))
    ensures Inv(Run(creators, es), r)
  {
    hide Apply, Enabled, MentionUndone;
    if es != [] {
      RunKeepsInv(creators, es[..|es| - 1], r);
      if Enabled(Run(creators, es[..|es| - 1]), es[|es| - 1]) {
        StepKeepsInv(creators, Run(creators, es[..|es| - 1]), es[|es| - 1], r);
      }
    }
  }

  // ----- Exactly when the history is in order -----

  /** A run in which the second proposal is numbered 1 again although an admin
      spoke in between. */
  function SecondFirst(r: Root): seq<Event> {
    [Start(0, r), ReadState(0), Post(0, true, ""), Others(r, Comment(true, false, "")), Start(1, r), ReadState(1),
      Post(1, true, "")]
  }

  lemma RunSnoc(creators: Root -> Creator, es: seq<Event>, e: Event)
    ensures Run(creators, es + [e]) == Step(creators, Run(creators, es), e)
  {
    assert (es + [e])[..|es|] == es;
  }

  /** What three undisturbed steps of a draft do on a free root. */
  lemma DraftPosts(creators: Root -> Creator, s: State, t: nat, r: Root)
    requires t !in s.drafts && s.inflight == {} && !Pending(Comments(s, r))
    ensures var p := ProposalComment(creators(r), true, "");
      var s3 := Step(creators, Step(creators, Step(creators, s, Start(t, r)), ReadState(t)), Post(t, true, ""));
      && s3.inflight == {} && s3.drafts == s.drafts[t := Over]
      && Comments(s3, r) == Comments(s, r) + [p]
      && History(s3, r) == History(s, r) + [Posted(|Comments(s, r)|, Proposals(Comments(s, r)) + 1)]
  {
    hide Pending, Proposals, ProposalComment, IsMarked;
    var s1 := Step(creators, s, Start(t, r));
    assert s1 == s.(inflight := {r}, drafts := s.drafts[t := Claimed(r)]);
    var s2 := Step(creators, s1, ReadState(t));
    assert s2.inflight == {r} && s2.drafts == s.drafts[t := Writing(r, Proposals(Comments(s, r)) + 1)];
    assert s2.comments == s.comments && s2.history == s.history;
  }

  lemma NumberedTwice(creators: Root -> Creator, r: Root)
    requires !MentionUndone(creators(r))
    ensures History(Run(creators, SecondFirst(r)), r) == [Posted(0, 1), Posted(2, 1)]
  {
    ProposalRecognised(creators(r), true, "");
    var p, a := ProposalComment(creators(r), true, ""), Comment(true, false, "");
    AdminUnmarked();
    NoneRecognised(p, a);
    UnfoldSecondFirst(creators, r);
    hide Run, IsMarked, IsProposal, ProposalComment, Pending, Proposals, Step;
    var s0 := Init();
    var s3 := Step(creators, Step(creators, Step(creators, s0, Start(0, r)), ReadState(0)), Post(0, true, ""));
    DraftPosts(creators, s0, 0, r);
    var s4 := Step(creators, s3, Others(r, a));
    AdminSpeaks(creators, s3, r);
    assert Comments(s4, r) == [p, a];
    DraftPosts(creators, s4, 1, r);
  }

  lemma AdminSpeaks(creators: Root -> Creator, s: State, r: Root)
    ensures var a := Comment(true, false, ""); var n := Step(creators, s, Others(r, a));
      && Comments(n, r) == Comments(s, r) + [a] && History(n, r) == History(s, r)
      && n.inflight == s.inflight && n.drafts == s.drafts
  {
    AdminUnmarked();
    hide IsMarked;
  }

  lemma UnfoldSecondFirst(creators: Root -> Creator, r: Root)
    ensures Run(creators, SecondFirst(r)) ==
      Step(creators, Step(creators, Step(creators, Step(creators, Step(creators, Step(creators, Step(creators, Init(),
        Start(0, r)), ReadState(0)), Post(0, true, "")), Others(r, Comment(true, false, ""))),
        Start(1, r)), ReadState(1)), Post(1, true, ""))
  {
    hide Step;
    var e := SecondFirst(r);
    assert e[..0] == [] && e[..1] == e[..0] + [e[0]] && e[..2] == e[..1] + [e[1]];
    assert e[..3] == e[..2] + [e[2]] && e[..4] == e[..3] + [e[3]];
    assert e[..5] == e[..4] + [e[4]] && e[..6] == e[..5] + [e[5]] && e == e[..6] + [e[6]];
    RunSnoc(creators, e[..0], e[0]);
    RunSnoc(creators, e[..1], e[1]);
    RunSnoc(creators, e[..2], e[2]);
    RunSnoc(creators, e[..3], e[3]);
    RunSnoc(creators, e[..4], e[4]);
    RunSnoc(creators, e[..5], e[5]);
    RunSnoc(creators, e[..6], e[6]);
  }

  lemma AdminUnmarked()
    ensures !IsMarked(Comment(true, false, "")) && !Pending([]) && Proposals([]) == 0
  {
  }

  lemma NoneRecognised(p: Comment, a: Comment)
    requires !IsProposal(p) && a.byAdmin && !IsMarked(a)
    ensures Proposals([p, a]) == 0 && !Pending([p, a])
  {
    hide IsMarked, IsProposal;
    assert [p, a][..1] == [p] && [p][..0] == [];
    assert Proposals([p]) == 0;
    assert !IsProposal(a) by { MarkedCovers(a); }
    assert [p, a][1].byAdmin;
  }

  lemma MarkedCovers(c: Comment)
    ensures IsProposal(c) ==> IsMarked(c)
  {
  }

  /** Over every interleaving of drafts and comments, the proposals of a root are
      numbered 1, 2, 3, ... with an admin comment between any two in a row, if
      and only if the scan can undo the mention of the root's creator. */
  lemma HistoryIsOrderlyIff(creators: Root -> Creator, r: Root)
    ensures (forall es :: Orderly(History(Run(creators, es), r), Comments(Run(creators, es), r)))
      <==> MentionUndone(creators(r))
  {
    hide Run, Orderly;
    if MentionUndone(creators(r)) {
      forall es ensures Orderly(History(Run(creators, es), r), Comments(Run(creators, es), r)) {
        RunKeepsInv(creators, es, r);
      }
    } else {
      NumberedTwice(creators, r);
      TwiceIsNotOrderly(Comments(Run(creators, SecondFirst(r)), r));
      assert !Orderly(History(Run(creators, SecondFirst(r)), r), Comments(Run(creators, SecondFirst(r)), r));
    }
  }

  lemma TwiceIsNotOrderly(cs: seq<Comment>)
    ensures !Orderly([Posted(0, 1), Posted(2, 1)], cs)
  {
    assert [Posted(0, 1), Posted(2, 1)][1].version == 1;
  }

  /** At any time at most one live draft works on a root. */
  lemma {:induction false} OneDraftPerRoot(creators: Root -> Creator, es: seq<Event>)
    ensures Exclusive(Run(creators, es))
  {
    hide Apply, Enabled;
    if es != [] {
      OneDraftPerRoot(creators, es[..|es| - 1]);
      if Enabled(Run(creators, es[..|es| - 1]), es[|es| - 1]) {
        StepKeepsExclusive(creators, Run(creators, es[..|es| - 1]), es[|es| - 1]);
      }
    }
  }

  // ----- Claims and follow-ups -----

  /** A root is claimed exactly as long as a live draft works on it: no claim is left
      behind, however the draft ends. */
  ghost predicate ClaimsAreLive(s: State) {
    forall r :: r in s.inflight <==> exists t :: t in s.drafts && !s.drafts[t].Over? && s.drafts[t].root == r
  }

  /** The draft whose stage an event changes, if any. */
  function Mover(e: Event): Option<nat> {
    match e
    case Start(t, _) => Some(t)
    case ReadState(t) => Some(t)
    case Post(t, _, _) => Some(t)
    case Fail(t) => Some(t)
    case Refuse(t, _) => Some(t)
    case Execute(t, _) => Some(t)
    case Others(_, _) => None
    case Restart => None
  }

  lemma StepClaims(creators: Root -> Creator, s: State, e: Event)
    requires Exclusive(s) && ClaimsAreLive(s) && Enabled(s, e)
    ensures ClaimsAreLive(Apply(creators, s, e))
  {
    hide Pending, Proposals, IsMarked, ProposalComment, BlockedComment, Comments, History;
    var n := Apply(creators, s, e);
    forall r ensures r in n.inflight <==> exists t :: t in n.drafts && !n.drafts[t].Over? && n.drafts[t].root == r {
      if r in n.inflight {
        if t :| t in s.drafts && !s.drafts[t].Over? && s.drafts[t].root == r {
          assert t in n.drafts && !n.drafts[t].Over? && n.drafts[t].root == r;
        } else {
          assert e.Start? && e.root == r;
          assert e.t in n.drafts && !n.drafts[e.t].Over? && n.drafts[e.t].root == r;
        }
      }
      if t :| t in n.drafts && !n.drafts[t].Over? && n.drafts[t].root == r {
        assert t in s.drafts ==> !s.drafts[t].Over? && s.drafts[t].root == r;
      }
    }
  }

  lemma {:induction false} ClaimIffLive(creators: Root -> Creator, es: seq<Event>)
    ensures Exclusive(Run(creators, es)) && ClaimsAreLive(Run(creators, es))
  {
    hide Apply, Enabled;
    if es == [] {
      NothingClaimed();
    } else {
      var before, e := es[..|es| - 1], es[|es| - 1];
      ClaimIffLive(creators, before);
      hide ClaimsAreLive, Exclusive;
      if Enabled(Run(creators, before), e) {
        StepClaims(creators, Run(creators, before), e);
        StepKeepsExclusive(creators, Run(creators, before), e);
      }
    }
  }

  lemma NothingClaimed()
    ensures Exclusive(Init()) && ClaimsAreLive(Init())
  {
  }

  /** What may end a draft that is executing. */
  predicate Ends(e: Event, t: nat) {
    e.Restart? || e == Fail(t) || (e.Refuse? && e.t == t) || (e.Execute? && e.t == t)
  }

  lemma StepExecuting(creators: Root -> Creator, s: State, e: Event, t: nat)
    requires Enabled(s, e) && t in s.drafts && s.drafts[t].Executing? && !Ends(e, t)
    ensures t in Apply(creators, s, e).drafts && Apply(creators, s, e).drafts[t] == s.drafts[t]
  {
    hide Pending, Proposals, IsMarked, ProposalComment, BlockedComment, Comments, History;
  }

  /** A proposal posted on the draft's own authority is followed up: until it is carried
      out, refused, failed or lost with the process, its draft is executing and holds
      the claim on its root. */
  lemma {:induction false} PostedIsFollowedUp(creators: Root -> Creator, es: seq<Event>, t: nat, body: string,
                                              more: seq<Event>)
    requires Enabled(Run(creators, es), Post(t, false, body))
    requires forall k :: 0 <= k < |more| ==> !Ends(more[k], t)
    ensures var d, n := Run(creators, es).drafts[t], Run(creators, es + [Post(t, false, body)] + more);
      && t in n.drafts && n.drafts[t] == Executing(d.root, d.version) && d.root in n.inflight
    decreases |more|
  {
    hide Apply, Enabled;
    var e := Post(t, false, body);
    var all := es + [e] + more;
    ClaimIffLive(creators, all);
    if more == [] {
      assert all == es + [e];
      RunSnoc(creators, es, e);
      ThenExecutes(creators, Run(creators, es), t, body);
    } else {
      var front, f := es + [e] + more[..|more| - 1], more[|more| - 1];
      PostedIsFollowedUp(creators, es, t, body, more[..|more| - 1]);
      assert all == front + [f];
      RunSnoc(creators, front, f);
      if Enabled(Run(creators, front), f) {
        StepExecuting(creators, Run(creators, front), f, t);
      }
    }
    WasWriting(Run(creators, es), t, body);
    hide Run, Exclusive;
    assert Run(creators, all).drafts[t].root == Run(creators, es).drafts[t].root;
  }

  lemma WasWriting(s: State, t: nat, body: string)
    requires Enabled(s, Post(t, false, body))
    ensures t in s.drafts && s.drafts[t].Writing?
  {
  }

  lemma ThenExecutes(creators: Root -> Creator, s: State, t: nat, body: string)
    requires Enabled(s, Post(t, false, body))
    ensures var n := Apply(creators, s, Post(t, false, body));
      t in n.drafts && n.drafts[t] == Executing(s.drafts[t].root, s.drafts[t].version)
  {
    hide Pending, Proposals, IsMarked, ProposalComment;
  }
}
