/**
 Pulling index versions from the artifact store: copy, prune, point `active` at
 the new one.  Each step moves or removes a whole directory or replaces one link;
 pushes to the store happen at any time.
 */
module Artifacts {
  import opened Wrappers
  import opened Versions

  type Content = nat

  datatype Stage = Copying | Pruning(victims: set<string>) | Switching

  /** A running `pull --switch-active`. */
  datatype Pull = Pull(build: string, keepN: int, stage: Stage)

  datatype Files = Files(
    store: map<string, Content>,
    local: map<string, Content>,     // version directories below the release root
    active: Option<string>,          // what the link `active` names
    pull: Option<Pull>)

  /** Directories that pruning looks at. */
  predicate Listed(name: string) {
    name != "active" && (name == "" || name[0] != '.')
  }

  function ListedOf(names: set<string>): (r: set<string>) {
    set x | x in names && Listed(x)
  }

  predicate ActiveResolves(f: Files) {
    f.active.Some? ==> f.active.value in f.local
  }

  /** `strip("/")`. */
  function Stripped(s: string): (r: string)
    ensures s == "" || (s[0] != '/' && s[|s| - 1] != '/') ==> r == s
  {
    if s == "" then s
    else if s[0] == '/' then Stripped(s[1..])
    else if s[|s| - 1] == '/' then Stripped(s[..|s| - 1])
    else s
  }

  /** An empty build id asks for the latest, like none. */
  function ResolveBuild(store: map<string, Content>, explicit: Option<string>): (r: Option<string>) {
    if explicit.Some? && explicit.value != "" then Some(Stripped(explicit.value))
    else if store.Keys == {} then None
    else Some(Max(store.Keys))
  }

  /** What pruning after the pull of `build` removes. */
  function Victims(local: set<string>, build: string, keepN: int): (r: set<string>) {
    ListedOf(local) - Kept(ListedOf(local), keepN, build)
  }

  datatype Action =
    | Push(build: string, content: Content)
    | BeginPull(explicit: Option<string>, keepN: int)
    | Copy                                   // also lists what to prune
    | Missing                                // the build is not in the store: the pull fails
    | Remove(victim: string)
    | PruneDone
    | SwitchLink
    | SwitchCommand(build: string)

  predicate Enabled(f: Files, a: Action) {
    match a
    case Push(_, _) => true
    case BeginPull(explicit, _) => f.pull.None? && ResolveBuild(f.store, explicit).Some?
    case Copy => f.pull.Some? && f.pull.value.stage.Copying? && f.pull.value.build in f.store
    case Missing => f.pull.Some? && f.pull.value.stage.Copying? && f.pull.value.build !in f.store
    case Remove(v) => f.pull.Some? && f.pull.value.stage.Pruning? && v in f.pull.value.stage.victims
    case PruneDone => f.pull.Some? && f.pull.value.stage == Pruning({})
    case SwitchLink => f.pull.Some? && f.pull.value.stage.Switching?
    case SwitchCommand(b) => f.pull.None? && b in f.local
  }

  function CopyStep(f: Files, p: Pull): (r: Files)
    requires p.build in f.store
  {
    var local := if p.build in f.local then f.local else f.local[p.build := f.store[p.build]];
    f.(local := local, pull := Some(p.(stage := Pruning(Victims(local.Keys, p.build, p.keepN)))))
  }

  function Step(f: Files, a: Action): (r: Files)
    requires Enabled(f, a)
  {
    match a
    case Push(b, c) => f.(store := f.store[b := c])
    case BeginPull(explicit, keepN) => f.(pull := Some(Pull(ResolveBuild(f.store, explicit).value, keepN, Copying)))
    case Copy => CopyStep(f, f.pull.value)
    case Missing => f.(pull := None)
    case Remove(v) =>
      f.(local := f.local - {v}, pull := Some(f.pull.value.(stage := Pruning(f.pull.value.stage.victims - {v}))))
    case PruneDone => f.(pull := Some(f.pull.value.(stage := Switching)))
    case SwitchLink => f.(active := Some(f.pull.value.build), pull := None)
    case SwitchCommand(b) => f.(active := Some(b))
  }

  ghost predicate Run(f: Files, actions: seq<Action>, f': Files)
    decreases |actions|
  {
    if actions == [] then f' == f
    else Enabled(f, actions[0]) && Run(Step(f, actions[0]), actions[1..], f')
  }

  // ─── What one pull leaves ──────────────────────────────────────────────────

  /** How many of the listed versions and the pulled one are newer than `x`. */
  function Newer(local: set<string>, build: string, x: string): (r: nat) {
    |Above(ListedOf(local) + {build}, x)|
  }

  /** A version survives the pruning exactly if fewer than `keepN` of the versions are newer. */
  lemma SurvivesIff(local: set<string>, build: string, keepN: int, x: string)
    requires x in local && keepN > 0
    ensures x !in Victims(local, build, keepN) <==> !Listed(x) || Newer(local, build, x) < keepN
  {
    if Listed(x) {
      NewestMeans(ListedOf(local) + {build}, keepN, x);
    }
  }

  /** The link `active` and hidden directories are never pruned, whatever is kept; anything else may be. */
  lemma NeverPruned(local: set<string>, build: string, keepN: int, x: string)
    ensures x == "active" || (x != "" && x[0] == '.') ==> x !in Victims(local, build, keepN)
    ensures x in Victims(local, build, keepN) ==> x in local && keepN > 0
    ensures x in local && x != "active" && (x == "" || x[0] != '.') && keepN > 0 && x !in Victims(local, build, keepN) ==> Newer(local, build, x) < keepN
  {
    if x in local && keepN > 0 {
      SurvivesIff(local, build, keepN, x);
    }
  }

  /** A pull of a build that is not in the store fails and leaves everything as it was. */
  lemma FailedPullChangesNothing(f: Files, explicit: Option<string>, keepN: int, f': Files)
    requires Run(f, [BeginPull(explicit, keepN), Missing], f')
    ensures f' == f
  {
    var begun := Step(f, BeginPull(explicit, keepN));
    assert [BeginPull(explicit, keepN), Missing][1..] == [Missing];
    assert Run(begun, [Missing], f');
    assert [Missing][1..] == [];
    assert Run(Step(begun, Missing), [], f');
  }

  /** The steps of one pull after its copy, with pushes in between. */
  predicate PullStep(a: Action) {
    a.Push? || a.Remove? || a.PruneDone? || a.SwitchLink?
  }

  /** Where the pull of `build` stands, given the versions and the link before its pruning. */
  predicate Underway(f: Files, before: set<string>, build: string, keepN: int, active: Option<string>) {
    var victims := Victims(before, build, keepN);
    match f.pull
    case None => f.active == Some(build) && f.local.Keys == before - victims
    case Some(Pull(b, _, Pruning(rest))) =>
      b == build && f.active == active && rest <= victims && f.local.Keys == before - (victims - rest)
    case Some(Pull(b, _, Switching)) => b == build && f.active == active && f.local.Keys == before - victims
    case Some(_) => false
  }

  lemma UnderwayStep(f: Files, a: Action, before: set<string>, build: string, keepN: int, active: Option<string>)
    requires Underway(f, before, build, keepN, active) && Enabled(f, a) && PullStep(a)
    ensures Underway(Step(f, a), before, build, keepN, active)
  {
    hide Victims;
    if a.Remove? {
      var victims, rest := Victims(before, build, keepN), f.pull.value.stage.victims;
      assert before - (victims - rest) - {a.victim} == before - (victims - (rest - {a.victim}));
    }
  }

  lemma {:induction false} UnderwayRun(f: Files, actions: seq<Action>, f': Files, before: set<string>, build: string, keepN: int, active: Option<string>)
    requires Underway(f, before, build, keepN, active) && Run(f, actions, f')
    requires forall i :: 0 <= i < |actions| ==> PullStep(actions[i])
    ensures Underway(f', before, build, keepN, active)
    decreases |actions|
  {
    hide Step, Underway, PullStep;
    if actions != [] {
      UnderwayStep(f, actions[0], before, build, keepN, active);
      UnderwayRun(Step(f, actions[0]), actions[1..], f', before, build, keepN, active);
    }
  }

  /** The version is left by the pruning: what a caller can tell from the directory names. */
  predicate Survives(local: set<string>, build: string, keepN: int, x: string) {
    keepN <= 0 || !Listed(x) || Newer(local, build, x) < keepN
  }

  /**
   For every pull, of the latest or of a given build: when the link is about to
   be replaced the old `active` resolves exactly if its version survives, and
   afterwards `active` resolves exactly if the pulled version does.
   */
  lemma PullResolvesIff(f: Files, actions: seq<Action>, f': Files)
    requires Enabled(f, Copy) && Run(Step(f, Copy), actions, f') && forall i :: 0 <= i < |actions| ==> PullStep(actions[i])
    ensures
      var build, keepN, before := f.pull.value.build, f.pull.value.keepN, f.local.Keys + {f.pull.value.build};
      && (f'.pull.None? ==> f'.active == Some(build) && (ActiveResolves(f') <==> Survives(before, build, keepN, build)))
      && (f'.pull.Some? && f'.pull.value.stage.Switching? && f.active.Some? && f.active.value in f.local ==>
            f'.active == f.active && (ActiveResolves(f') <==> Survives(before, build, keepN, f.active.value)))
  {
    hide Victims, Run, Newer, Listed;
    var build, keepN, before := f.pull.value.build, f.pull.value.keepN, f.local.Keys + {f.pull.value.build};
    var g := Step(f, Copy);
    assert g.local.Keys == before;
    assert Underway(g, before, build, keepN, f.active);
    UnderwayRun(g, actions, f', before, build, keepN, f.active);
    VictimsIff(before, build, keepN, build);
    if f.active.Some? && f.active.value in f.local {
      VictimsIff(before, build, keepN, f.active.value);
    }
  }

  // ─── What was pulled ───────────────────────────────────────────────────────

  /** The part of `s` between `i` and `j`, with slashes around it and none at its ends. */
  ghost predicate Trimmed(s: string, r: string, i: nat, j: nat) {
    && i <= j <= |s| && r == s[i..j] && (forall k :: 0 <= k < i || j <= k < |s| ==> s[k] == '/')
    && (i < j ==> s[i] != '/' && s[j - 1] != '/')
  }

  lemma {:induction false} StrippedIs(s: string) returns (i: nat, j: nat)
    ensures Trimmed(s, Stripped(s), i, j)
  {
    if s == "" {
      i, j := 0, 0;
    } else if s[0] == '/' {
      i, j := StrippedIs(s[1..]);
      assert s[1..][i..j] == s[i + 1..j + 1];
      forall k | 0 < k < |s| ensures s[k] == s[1..][k - 1] {
      }
      i, j := i + 1, j + 1;
    } else if s[|s| - 1] == '/' {
      i, j := StrippedIs(s[..|s| - 1]);
      assert s[..|s| - 1][i..j] == s[i..j];
    } else {
      i, j := 0, |s|;
      assert s[0..|s|] == s;
    }
  }

  /** The build that is asked for, without slashes around it; or the greatest id in the store. */
  lemma BuildIs(store: map<string, Content>, explicit: Option<string>)
    ensures explicit.Some? && explicit.value != "" && explicit.value[0] != '/' && explicit.value[|explicit.value| - 1] != '/' ==>
      ResolveBuild(store, explicit) == explicit
    ensures explicit.None? || explicit.value == "" ==>
      if store == map[] then ResolveBuild(store, explicit).None?
      else ResolveBuild(store, explicit).Some? && IsMax(store.Keys, ResolveBuild(store, explicit).value)
  {
    assert store != map[] ==> store.Keys != {};
  }

  /** The versions other than the pulled one are as they were, or gone; the pulled one has this content. */
  predicate Delivered(f: Files, local: map<string, Content>, build: string, content: Content) {
    forall x :: x in f.local ==> if x == build then f.local[x] == content else x in local && f.local[x] == local[x]
  }

  lemma {:induction false} DeliveredRun(f: Files, actions: seq<Action>, f': Files, local: map<string, Content>, build: string, content: Content)
    requires Delivered(f, local, build, content) && Run(f, actions, f') && forall i :: 0 <= i < |actions| ==> PullStep(actions[i])
    ensures Delivered(f', local, build, content)
    decreases |actions|
  {
    if actions != [] {
      assert PullStep(actions[0]);
      DeliveredRun(Step(f, actions[0]), actions[1..], f', local, build, content);
    }
  }

  lemma {:induction false} PushesRun(f: Files, actions: seq<Action>, f': Files)
    requires Run(f, actions, f') && forall i :: 0 <= i < |actions| ==> actions[i].Push?
    ensures f'.local == f.local && f'.pull == f.pull
    decreases |actions|
  {
    if actions != [] {
      PushesRun(Step(f, actions[0]), actions[1..], f');
    }
  }

  /**
   A whole pull, with pushes at any time: it makes `active` name the build that was
   asked for, and that version, where it survives, holds what the store held when it was
   copied, or what was already there; no other version changes.
   */
  lemma PullDelivers(f: Files, explicit: Option<string>, keepN: int, before: seq<Action>, g: Files, after: seq<Action>, f': Files)
    requires Enabled(f, BeginPull(explicit, keepN)) && Run(Step(f, BeginPull(explicit, keepN)), before, g) && Enabled(g, Copy)
    requires forall i :: 0 <= i < |before| ==> before[i].Push?
    requires Run(Step(g, Copy), after, f') && forall i :: 0 <= i < |after| ==> PullStep(after[i])
    ensures
      var b := ResolveBuild(f.store, explicit).value;
      && b in g.store && Delivered(f', f.local, b, if b in f.local then f.local[b] else g.store[b])
      && (f'.pull.None? ==> f'.active == Some(b))
  {
    hide Run, Victims, ResolveBuild;
    PushesRun(Step(f, BeginPull(explicit, keepN)), before, g);
    var b := ResolveBuild(f.store, explicit).value;
    DeliveredRun(Step(g, Copy), after, f', f.local, b, if b in f.local then f.local[b] else g.store[b]);
    PullResolvesIff(g, after, f');
  }

  /** A switch to a version that is there: `active` stays on it, whatever is pushed, copied
      or pruned, until the next switch. */
  lemma SwitchHolds(f: Files, b: string, actions: seq<Action>, f': Files)
    requires Enabled(f, SwitchCommand(b)) && Run(Step(f, SwitchCommand(b)), actions, f')
    requires forall i :: 0 <= i < |actions| ==> !actions[i].SwitchLink? && !actions[i].SwitchCommand?
    ensures f'.active == Some(b)
  {
    ActiveKept(Step(f, SwitchCommand(b)), actions, f');
  }

  lemma {:induction false} ActiveKept(f: Files, actions: seq<Action>, f': Files)
    requires Run(f, actions, f') && forall i :: 0 <= i < |actions| ==> !actions[i].SwitchLink? && !actions[i].SwitchCommand?
    ensures f'.active == f.active
    decreases |actions|
  {
    hide ResolveBuild, Victims;
    if actions != [] {
      ActiveKept(Step(f, actions[0]), actions[1..], f');
    }
  }

  predicate PushesOf(a: Action, b: string) {
    a.Push? && a.build == b
  }

  /** What a build holds in the store until it is pushed again. */
  lemma {:induction false} PushedStays(f: Files, actions: seq<Action>, f': Files, b: string)
    requires Run(f, actions, f') && b in f.store && forall i :: 0 <= i < |actions| ==> !PushesOf(actions[i], b)
    ensures b in f'.store && f'.store[b] == f.store[b]
    decreases |actions|
  {
    hide ResolveBuild, Victims;
    if actions != [] {
      assert !PushesOf(actions[0], b);
      PushedStays(Step(f, actions[0]), actions[1..], f', b);
    }
  }

  /** A push of the newest build, then a pull of the latest: what was pushed is what becomes active. */
  lemma PushThenPull(f: Files, b: string, c: Content, keepN: int, before: seq<Action>, g: Files, after: seq<Action>, f': Files)
    requires f.pull.None? && b !in f.local && forall x :: x in f.store ==> x == b || Less(x, b)
    requires
      var p := Step(f, Push(b, c));
      && Enabled(p, BeginPull(None, keepN)) && Run(Step(p, BeginPull(None, keepN)), before, g) && Enabled(g, Copy)
    requires forall i :: 0 <= i < |before| ==> before[i].Push? && !PushesOf(before[i], b)
    requires Run(Step(g, Copy), after, f') && forall i :: 0 <= i < |after| ==> PullStep(after[i])
    ensures (b in f'.local ==> f'.local[b] == c) && (f'.pull.None? ==> f'.active == Some(b))
  {
    hide Run, Victims, Less;
    var p := Step(f, Push(b, c));
    LatestIs(p.store, b);
    PushedStays(Step(p, BeginPull(None, keepN)), before, g, b);
    PullDelivers(p, None, keepN, before, g, after, f');
  }

  lemma LatestIs(store: map<string, Content>, b: string)
    requires b in store && forall x :: x in store ==> x == b || Less(x, b)
    ensures ResolveBuild(store, None) == Some(b)
  {
    hide Less;
    BuildIs(store, None);
    var m := ResolveBuild(store, None).value;
    if m != b {
      assert Less(m, b) && Less(b, m);
      Asymmetric(m, b);
    }
  }

  lemma VictimsIff(local: set<string>, build: string, keepN: int, x: string)
    requires x in local
    ensures x !in Victims(local, build, keepN) <==> Survives(local, build, keepN, x)
  {
    hide Newer, Listed;
    if keepN > 0 {
      SurvivesIff(local, build, keepN, x);
    }
  }

  // ─── Runs of latest-version pulls ──────────────────────────────────────────

  /** Pushes, and pulls of the latest version that keep all or at least two. */
  predicate Latest(a: Action) {
    match a
    case Push(b, _) => b != "active"
    case BeginPull(explicit, keepN) => explicit.None? && (keepN <= 0 || keepN >= 2)
    case SwitchCommand(_) => false
    case _ => true
  }

  predicate NewestOf(s: set<string>, b: string) {
    forall x :: x in s ==> x == b || Less(x, b)
  }

  predicate ActiveIsNewest(f: Files) {
    match f.active
    case Some(a) => NewestOf(f.local.Keys, a)
    case None => f.local == map[]
  }

  predicate Coherent(f: Files) {
    && f.local.Keys <= f.store.Keys && "active" !in f.store
    && (f.active.Some? ==> f.active.value in f.local)
    && match f.pull
       case None => ActiveIsNewest(f)
       case Some(p) =>
         && p.build in f.store && NewestOf(f.local.Keys, p.build) && (p.keepN <= 0 || p.keepN >= 2)
         && match p.stage
            case Copying => ActiveIsNewest(f)
            case Pruning(victims) =>
              p.build in f.local && p.build !in victims && (f.active.Some? ==> f.active.value !in victims)
            case Switching => p.build in f.local
  }

  /** Nothing is above the newest, and only the newest is above the one that was newest before. */
  lemma FewAbove(local: set<string>, a: string, b: string)
    requires NewestOf(local + {b}, b) && a in local && NewestOf(local, a)
    ensures Newer(local, b, b) == 0 && Newer(local, b, a) <= 1
  {
    var s := ListedOf(local) + {b};
    forall y | y in s ensures !Less(b, y) {
      if y == b {
        Irreflexive(b);
      } else {
        Asymmetric(y, b);
      }
    }
    assert Above(s, b) == {};
    forall y | y in Above(s, a) ensures y == b {
      if y != b {
        if y != a {
          Asymmetric(y, a);
        } else {
          Irreflexive(a);
        }
      }
    }
    SubsetSize(Above(s, a), {b});
  }

  lemma VictimsSpare(local: set<string>, a: Option<string>, b: string, keepN: int)
    requires NewestOf(local, b) && b in local && (keepN <= 0 || keepN >= 2)
    requires a.Some? ==> a.value in local && NewestOf(local - {b}, a.value)
    ensures b !in Victims(local, b, keepN) && (a.Some? ==> a.value !in Victims(local, b, keepN))
  {
    hide Less, Listed;
    if keepN > 0 {
      assert local + {b} == local;
      FewAboveTop(local, b);
      SurvivesIff(local, b, keepN, b);
      if a.Some? && a.value != b {
        FewAboveSecond(local, a.value, b);
        SurvivesIff(local, b, keepN, a.value);
      }
    }
  }

  lemma FewAboveTop(local: set<string>, b: string)
    requires NewestOf(local, b) && b in local
    ensures Newer(local, b, b) == 0
  {
    FewAbove(local, b, b);
  }

  lemma FewAboveSecond(local: set<string>, a: string, b: string)
    requires NewestOf(local, b) && b in local && a in local && a != b && NewestOf(local - {b}, a)
    ensures Newer(local, b, a) <= 1
  {
    var s := ListedOf(local) + {b};
    forall y | y in Above(s, a) ensures y == b {
      if y != b {
        assert y in local - {b};
        if y != a {
          Asymmetric(y, a);
        } else {
          Irreflexive(a);
        }
      }
    }
    SubsetSize(Above(s, a), {b});
  }

  lemma NewestLater(local: set<string>, a: string, b: string)
    requires NewestOf(local, a)
    ensures NewestOf(local - {b}, a)
  {
  }

  lemma CopyCoherent(f: Files)
    requires Coherent(f) && Enabled(f, Copy)
    ensures Coherent(Step(f, Copy))
  {
    hide Less, Victims;
    var p, f' := f.pull.value, Step(f, Copy);
    assert f'.local.Keys == f.local.Keys + {p.build};
    if f.active.Some? {
      NewestLater(f.local.Keys, f.active.value, p.build);
      assert f'.local.Keys - {p.build} == f.local.Keys - {p.build};
    }
    VictimsSpare(f'.local.Keys, f.active, p.build, p.keepN);
  }

  lemma StepCoherent(f: Files, a: Action)
    requires Coherent(f) && Enabled(f, a) && Latest(a)
    ensures Coherent(Step(f, a))
  {
    hide Less, Victims;
    match a
    case Copy => CopyCoherent(f);
    case _ =>
  }

  /**
   In every run of pushes and latest-version pulls that keep all or at least two
   versions, `active` resolves at every step, also between the pruning and the
   replacement of the link.
   */
  lemma {:induction false} ActiveAlwaysResolves(f: Files, actions: seq<Action>, f': Files)
    requires Coherent(f) && Run(f, actions, f') && forall i :: 0 <= i < |actions| ==> Latest(actions[i])
    ensures Coherent(f') && ActiveResolves(f')
    decreases |actions|
  {
    hide Step, Latest;
    if actions != [] {
      StepCoherent(f, actions[0]);
      ActiveAlwaysResolves(Step(f, actions[0]), actions[1..], f');
    }
  }

  /** Keeping one version removes the active one before the link is replaced. */
  lemma KeepOneDangles(f: Files, a: string)
    requires f.pull.Some? && f.pull.value.stage.Copying? && f.pull.value.build in f.store && f.pull.value.keepN == 1
    requires f.active == Some(a) && a in f.local && Listed(a) && Less(a, f.pull.value.build)
    ensures a in Step(f, Copy).pull.value.stage.victims
  {
    var b, local := f.pull.value.build, Step(f, Copy).local.Keys;
    assert b in Above(ListedOf(local) + {b}, a);
    assert Newer(local, b, a) >= 1 by {
      SubsetSize({b}, Above(ListedOf(local) + {b}, a));
    }
    SurvivesIff(local, b, 1, a);
  }
}
