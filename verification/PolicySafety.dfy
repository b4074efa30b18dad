/** The guarantees of the policy runtime, over every run. */
module PolicySafety {
  import opened Options
  import opened PolicyScope
  import opened PolicyTypes
  import opened PolicyEngine
  import opened PolicyWorld
  import opened PolicyInvariants
  import opened PolicyStaleness
  import opened PolicyAuthority
  import opened PolicyRuns

  // ---- The beginning ----

  /** These policies are the rules of the database, each pattern once. */
  ghost predicate Loaded(stored: seq<Policy>, entries: Rules) {
    Distinct(stored) && forall pattern, a ::
      StatusAt(stored, pattern, a) == if (pattern, a) in entries then Some(entries[(pattern, a)]) else None
  }

  /** A new runtime is at the beginning of a run, and its root holds exactly what the database holds. */
  lemma InitialMeaning(root: AgentId, stored: seq<Policy>, defaults: PerArea<Fallback>, context: string, entries: Rules)
    requires Loaded(stored, entries)
    ensures var w := Initial(root, stored, defaults, context, entries);
      && Init(Runtime(w, map[])) && w.root == root && w.database == entries && w.defaults == defaults
      && !w.reviewer && w.objects[0].context == context
      && forall pattern, a :: StatusAt(w.objects[0].policies, pattern, a)
           == if (pattern, a) in entries then Some(entries[(pattern, a)]) else None
  {
    var w := Initial(root, stored, defaults, context, entries);
    AddMeaning([], stored, ROOT, FsRead);
    forall pattern, a
      ensures StatusAt(w.objects[0].policies, pattern, a) == StatusAt(stored, pattern, a)
    {
      AddMeaning([], stored, pattern, a);
    }
  }

  // ---- Runs ----

  ghost predicate IsRun(states: seq<Runtime>, acts: seq<Action>) {
    && |states| == |acts| + 1 && Init(states[0])
    && forall i :: 0 <= i < |acts| ==> StepAt(states, acts, i)
  }

  ghost predicate StepAt(states: seq<Runtime>, acts: seq<Action>, i: nat)
    requires |states| == |acts| + 1 && i < |acts|
  {
    Tree(states[i].world) && Enabled(states[i], acts[i]) && states[i + 1] == Next(states[i], acts[i])
  }

  lemma {:induction false} Always(states: seq<Runtime>, acts: seq<Action>, i: nat)
    requires IsRun(states, acts) && i < |states|
    ensures Invariant(states[i])
  {
    if i == 0 {
      InitSound(states[0]);
    } else {
      Always(states, acts, i - 1);
      assert StepAt(states, acts, i - 1);
      InvariantKept(states[i - 1], acts[i - 1]);
    }
  }

  /** Each waiting request remembers the world it was asked in. */
  lemma {:induction false} AskedAt(states: seq<Runtime>, acts: seq<Action>, i: nat, id: nat) returns (k: nat)
    requires IsRun(states, acts) && i < |states| && id in states[i].waiting
    ensures k < i && acts[k].Ask? && acts[k].id == id && states[i].waiting[id].made == states[k].world
  {
    assert i > 0;
    assert StepAt(states, acts, i - 1);
    WaitingAfter(states[i - 1], acts[i - 1]);
    assert WaitsAfter(states[i - 1], acts[i - 1], states[i], id);
    if id in states[i - 1].waiting {
      k := AskedAt(states, acts, i - 1, id);
    } else {
      k := i - 1;
    }
  }

  /** The answer a step gives to a waiting request, if it ends one. */
  ghost function Ending(s: Runtime, act: Action): Option<Verdict>
    requires Tree(s.world) && Enabled(s, act)
  {
    match act
    case Prompt(id, aborted) => BeforePrompt(s.world, s.waiting[id].pending, aborted)
    case Finish(id, answer, aborted) => Some(Complete(s.world, s.waiting[id].pending, answer, aborted).1)
    case _ => None
  }

  /** Some policy, fallback or choice for this call alone, stored now, says so. */
  ghost predicate SaidNow(w: World, p: Pending, v: Verdict)
    requires Holds(w, p)
  {
    Authority(w, p.requester, p.uri, p.access) == Some(v) || Evaluate(w.once[p.once], p.uri, p.access) == Some(v)
  }

  /** What an allowing answer rests on: what is stored now, or the choice, asked for under the circumstances that are
      still those of the request: the same principals under the same parents, with the same policies and contexts,
      the same authority or asking default, and a runtime that is not shutting down. */
  ghost predicate Grounded(w0: World, s: Runtime, act: Action, p: Pending, v: Verdict)
    requires Tree(w0) && Tree(s.world) && Holds(w0, p) && Holds(s.world, p)
  {
    || SaidNow(s.world, p, v)
    || (act.Finish? && act.answer.Some? && FromChoice(p, act.answer.value, v) && !act.aborted && CountsNow(w0, s.world, p))
  }

  lemma StoredIsSaid(w: World, p: Pending, v: Verdict)
    requires Holds(w, p) && StoredMeanwhile(w, p) == Some(v)
    ensures SaidNow(w, p, v)
  {
  }

  lemma FinishGrounded(w0: World, s: Runtime, act: Action)
    requires Tree(s.world) && Enabled(s, act) && act.Finish? && Waited(w0, s.world, s.waiting[act.id].pending)
    requires Holds(w0, s.waiting[act.id].pending)
    requires Ending(s, act).value.status.response.Allowed?
    ensures Grounded(w0, s, act, s.waiting[act.id].pending, Ending(s, act).value)
  {
    var (w, p, v) := (s.world, s.waiting[act.id].pending, Ending(s, act).value);
    if p.UserReview? {
      UserStaleness(w0, w, p, act.answer.value, act.aborted);
    } else if p.AncestorReview? {
      AncestorStaleness(w0, w, p, act.answer, act.aborted);
    } else {
      LlmStaleness(w0, w, p, act.answer, act.aborted);
    }
    if StoredMeanwhile(w, p) == Some(v) {
      StoredIsSaid(w, p, v);
    }
  }

  /** The check before the prompt allows only by what is stored, and only a request whose path still stands. */
  lemma PromptGrounded(w: World, p: Pending, aborted: bool)
    requires Tree(w) && p.UserReview? && Holds(w, p)
    ensures var v := BeforePrompt(w, p, aborted);
      v.Some? && v.value.status.response.Allowed? ==>
        SaidNow(w, p, v.value) && !aborted && !w.closing && Active(w, p.snapshot.path)
  {
    RefusedIsDenied(w, p.requester, p.uri, p.access);
  }

  /** Staleness safety: whatever happened since a request was made, an allowing answer to it is what is stored when it
      is answered, or a choice made under circumstances that are still those of the request. */
  lemma StalenessSafety(states: seq<Runtime>, acts: seq<Action>, i: nat) returns (k: nat)
    requires IsRun(states, acts) && i < |acts| && (acts[i].Finish? || acts[i].Prompt?)
    requires StepAt(states, acts, i)
    ensures var (s, act) := (states[i], acts[i]);
      var p := s.waiting[act.id].pending;
      && k < i && acts[k].Ask? && acts[k].id == act.id
      && Waited(states[k].world, s.world, p) && Holds(states[k].world, p)
      && (Ending(s, act).Some? && Ending(s, act).value.status.response.Allowed? ==>
            Grounded(states[k].world, s, act, p, Ending(s, act).value))
      && (act.Prompt? && Ending(s, act).Some? && Ending(s, act).value.status.response.Allowed? ==>
            !s.world.closing && Active(s.world, p.snapshot.path))
  {
    var (s, act) := (states[i], acts[i]);
    var p := s.waiting[act.id].pending;
    Always(states, acts, i);
    k := AskedAt(states, acts, i, act.id);
    assert Waited(states[k].world, s.world, p);
    WaitedHolds(states[k].world, s.world, p);
    if act.Prompt? {
      PromptGrounded(s.world, p, act.aborted);
    } else if Ending(s, act).value.status.response.Allowed? {
      FinishGrounded(states[k].world, s, act);
    }
  }

  /** The shortened check at completion is sound, in every run. */
  lemma ShortenedCheckAlways(states: seq<Runtime>, acts: seq<Action>, i: nat, id: nat, aborted: bool)
    requires IsRun(states, acts) && i < |states| && Tree(states[i].world) && id in states[i].waiting
    requires states[i].waiting[id].pending.UserReview? && Holds(states[i].world, states[i].waiting[id].pending)
    requires UserObstacle(states[i].world, states[i].waiting[id].pending, aborted).None?
    ensures BeforePrompt(states[i].world, states[i].waiting[id].pending, aborted).None?
  {
    Always(states, acts, i);
    var k := AskedAt(states, acts, i, id);
    ShortenedCheckSound(states[k].world, states[i].world, states[i].waiting[id].pending, aborted);
  }

  /** A request can always be completed: what it holds never goes away. */
  lemma RequestsHold(states: seq<Runtime>, acts: seq<Action>, i: nat, id: nat)
    requires IsRun(states, acts) && i < |states| && id in states[i].waiting
    ensures Tree(states[i].world) && Holds(states[i].world, states[i].waiting[id].pending)
  {
    Always(states, acts, i);
    WaitedHolds(states[i].waiting[id].made, states[i].world, states[i].waiting[id].pending);
  }

  /** Authority never widens: in every reachable state the principals form a rooted tree, agents below the
      root hold session policies only, and a lasting policy of the root is the one the database holds. */
  lemma AuthorityNeverWidens(states: seq<Runtime>, acts: seq<Action>, i: nat, ref: Ref, pattern: Path, a: Access)
    requires IsRun(states, acts) && i < |states| && ref in states[i].world.objects
    requires StatusAt(states[i].world.objects[ref].policies, pattern, a).Some?
    ensures Tree(states[i].world)
    ensures var w := states[i].world;
      var s := StatusAt(w.objects[ref].policies, pattern, a).value;
      && (w.objects[ref].agent != w.root ==> s.lifetime.Session?)
      && (!s.lifetime.Session? ==> InRules(w.database, pattern, a, s))
  {
    Always(states, acts, i);
    assert WithinBounds(states[i].world, ref, states[i].world.objects[ref]);
    assert Node(states[i].world, states[i].world.root);
  }

  lemma UserDatabase(w: World, p: Pending, c: Choice)
    requires Tree(w) && p.UserReview? && Holds(w, p)
    ensures InstallUser(w, p, c).0.database ==
      if Persisted(c.lifetime) then w.database[(c.uri, c.access) := Status(c.lifetime, c.response, c.reason)] else w.database
  {
    var policy := PolicyOf(c);
    GrantAllFallbacks(StoredAtRoot(w, c), Inner(p.snapshot.path), SessionPolicy(policy));
  }

  lemma ReviewedDatabase(w: World, p: Pending, refs: seq<Ref>, c: Choice)
    requires Holds(w, p) && Known(w, refs)
    ensures InstallReviewed(w, p, refs, c).database == w.database
  {
    GrantAllFallbacks(w, refs, PolicyOf(c));
  }

  /** The database changes only by a lasting choice of the user, and only for its pattern and access. */
  lemma DatabaseChangesByUser(s: Runtime, act: Action)
    requires Tree(s.world) && Enabled(s, act) && Next(s, act).world.database != s.world.database
    ensures act.Finish? && s.waiting[act.id].pending.UserReview?
    ensures var c := act.answer.value;
      && Persisted(c.lifetime)
      && Next(s, act).world.database == s.world.database[(c.uri, c.access) := Status(c.lifetime, c.response, c.reason)]
  {
    if act.Finish? {
      var p := s.waiting[act.id].pending;
      Installs(s.world, p, act.answer, act.aborted);
      if act.answer.Some? {
        if p.UserReview? {
          UserDatabase(s.world, p, act.answer.value);
        } else {
          ReviewedDatabase(s.world, p, p.snapshot.path, act.answer.value);
          ReviewedDatabase(s.world, p, Inner(p.snapshot.path), act.answer.value);
        }
      }
    }
  }

  /** After shutdown begins nothing is allowed any more: no waiting request installs or allows anything, */
  lemma ShutdownDeniesWaiting(w: World, p: Pending, answer: Option<Choice>, aborted: bool)
    requires Tree(w) && w.closing && Holds(w, p) && (p.UserReview? ==> answer.Some?)
    ensures Complete(w, p, answer, aborted).0 == w
    ensures Complete(w, p, answer, aborted).1.status.response.Denied?
  {
  }

  /** and no new request is allowed. */
  lemma ShutdownDeniesNew(w: World, requester: Ref, uri: Path, a: Access, once: nat)
    requires Tree(w) && w.closing && requester in w.objects && once in w.once
    ensures var r := Request(w, requester, uri, a, once); r.Decided? && r.verdict.status.response.Denied?
  {
  }

  lemma ClosingKept(s: Runtime, act: Action)
    requires Sound(s.world) && Enabled(s, act) && s.world.closing
    ensures Next(s, act).world.closing
  {
    StepPasses(s, act);
  }

  lemma ClosingStep(states: seq<Runtime>, acts: seq<Action>, i: nat)
    requires IsRun(states, acts) && i < |acts| && states[i].world.closing
    ensures states[i + 1].world.closing
  {
    assert StepAt(states, acts, i);
    Always(states, acts, i);
    ClosingKept(states[i], acts[i]);
  }

  lemma {:induction false} ShutdownForever(states: seq<Runtime>, acts: seq<Action>, i: nat, j: nat)
    requires IsRun(states, acts) && i <= j < |states| && states[i].world.closing
    ensures states[j].world.closing
    decreases j
  {
    if i < j {
      ShutdownForever(states, acts, i, j - 1);
      ClosingStep(states, acts, j - 1);
    }
  }
}
