/**
  * The guard every container call of the handover goes through
  * (internal/upgrade/docker_updater_identity.go isUpdaterContainer, pathsOverlap,
  * mutateUpdater).
  */
module UpdaterGuard {
  import opened Wrappers
  import Text

  type Id = string

  datatype Mount = Mount(kind: string, source: string, destination: string, writable: bool)

  datatype Container = Container(
    id: Id, name: string, decodes: bool, cmd: seq<string>, namesAgent: bool, officialImage: bool,
    privileged: bool, network: string, mounts: seq<Mount>)

  const SOCKET := "/var/run/docker.sock"
  const CONTROL := "/run/passwall-node-upgrades"
  const HELPER_COMMAND := "--run-docker-upgrade-helper"

  // ------------------------------------------------------------------------ paths

  predicate Within(inner: string, outer: string) {
    inner == outer || outer == "/" || outer + "/" <= inner
  }

  /** On cleaned host paths; an empty source overlaps nothing. */
  predicate PathsOverlap(a: string, b: string) {
    a != "" && b != "" && (Within(a, b) || Within(b, a))
  }

  /** A cleaned absolute path, from its components. */
  function Path(components: seq<string>): string {
    if components == [] then "/" else Joined(components)
  }

  function Joined(components: seq<string>): string {
    if components == [] then "" else "/" + components[0] + Joined(components[1..])
  }

  predicate Component(c: string) {
    c != "" && '/' !in c
  }

  ghost predicate Components(path: seq<string>) {
    forall i :: 0 <= i < |path| ==> Component(path[i])
  }

  /** What follows a component is nothing, or begins with a separator. */
  predicate Rest(s: string) {
    s == "" || s[0] == '/'
  }

  lemma JoinedRest(path: seq<string>)
    ensures Rest(Joined(path)) && (path != [] ==> Joined(path) != "")
  {
  }

  /** A component is determined by the text it begins, as is what follows it. */
  lemma FirstComponent(a: string, b: string, x: string, y: string)
    requires Component(a) && Component(b) && Rest(x) && Rest(y) && a + x <= b + y
    ensures (a == b && x <= y) || (x == "" && |a| < |b|)
  {
    var s, t := a + x, b + y;
    assert forall k :: 0 <= k < |a| ==> s[k] == a[k];
    assert forall k :: 0 <= k < |b| ==> t[k] == b[k];
    assert x != "" ==> s[|a|] == '/';
    assert y != "" ==> t[|b|] == '/';
    assert |a| == |b| ==> a == b && forall k :: 0 <= k < |x| ==> s[|a| + k] == x[k] && t[|a| + k] == y[k];
  }

  lemma PrefixStep(a: string, b: string, x: string, y: string)
    requires Component(a) && Component(b) && Rest(x) && Rest(y)
    ensures "/" + a + x + "/" <= "/" + b + y <==> a == b && x + "/" <= y
  {
    assert "/" + a + x + "/" == "/" + (a + (x + "/")) && "/" + b + y == "/" + (b + y);
    Text.PrefixAfterCommon("/", a + (x + "/"), b + y);
    Text.PrefixAfterCommon(a, x + "/", y);
    if a + (x + "/") <= b + y {
      FirstComponent(a, b, x + "/", y);
    }
  }

  lemma {:induction false} JoinedPrefix(outer: seq<string>, inner: seq<string>)
    requires Components(outer) && Components(inner) && outer != []
    ensures Joined(outer) + "/" <= Joined(inner) <==> outer < inner
  {
    if inner != [] {
      JoinedRest(outer[1..]);
      JoinedRest(inner[1..]);
      PrefixStep(outer[0], inner[0], Joined(outer[1..]), Joined(inner[1..]));
      if outer[0] == inner[0] {
        Heads(outer, inner);
        if outer[1..] != [] {
          JoinedPrefix(outer[1..], inner[1..]);
        } else {
          Separator(Joined(inner[1..]));
        }
      }
    }
  }

  lemma Separator(y: string)
    requires Rest(y)
    ensures "" + "/" <= y <==> y != ""
  {
  }

  lemma Heads(a: seq<string>, b: seq<string>)
    requires a != [] && b != [] && a[0] == b[0]
    ensures a < b <==> a[1..] < b[1..]
  {
    assert a == [a[0]] + a[1..] && b == [b[0]] + b[1..];
  }

  lemma {:induction false} JoinedInjective(a: seq<string>, b: seq<string>)
    requires Components(a) && Components(b) && Joined(a) == Joined(b)
    ensures a == b
  {
    if a != [] && b != [] {
      JoinedRest(a[1..]);
      JoinedRest(b[1..]);
      assert a[0] + Joined(a[1..]) == Joined(a)[1..] && b[0] + Joined(b[1..]) == Joined(b)[1..];
      FirstComponent(a[0], b[0], Joined(a[1..]), Joined(b[1..]));
      FirstComponent(b[0], a[0], Joined(b[1..]), Joined(a[1..]));
      assert a[0] == b[0];
      JoinedInjective(a[1..], b[1..]);
      assert a == [a[0]] + a[1..] && b == [b[0]] + b[1..];
    }
  }

  /**
    * Two paths overlap exactly when one is a directory on the way to the other, compared by
    * component and not by text.
    */
  lemma OverlapIsContainment(a: seq<string>, b: seq<string>)
    requires Components(a) && Components(b)
    ensures PathsOverlap(Path(a), Path(b)) <==> a <= b || b <= a
  {
    JoinedRest(a);
    JoinedRest(b);
    if a == [] {
      assert a <= b;
    } else if b == [] {
      assert b <= a;
    } else {
      JoinedPrefix(a, b);
      JoinedPrefix(b, a);
      if Joined(a) == Joined(b) {
        JoinedInjective(a, b);
      }
      RootIsAlone(a);
      RootIsAlone(b);
      assert a <= b <==> a == b || a < b;
      assert b <= a <==> a == b || b < a;
    }
  }

  lemma RootIsAlone(a: seq<string>)
    requires Components(a) && a != []
    ensures Joined(a) != "/"
  {
    assert |Joined(a)| >= 1 + |a[0]|;
  }

  // --------------------------------------------------------------------- updaters

  /** The last mount at a destination, which is the one the loops end with. */
  function LastAt(mounts: seq<Mount>, destination: string): Option<Mount> {
    if mounts == [] then None
    else if mounts[|mounts| - 1].destination == destination then Some(mounts[|mounts| - 1])
    else LastAt(mounts[..|mounts| - 1], destination)
  }

  function ControlOf(agent: Container): string {
    var mount := LastAt(agent.mounts, CONTROL);
    if mount.None? then "" else mount.value.source
  }

  /** No source of this container is, contains or lies in one of the agent's, other than the control directory's. */
  predicate SharesNothing(mounts: seq<Mount>, agent: Container) {
    forall i, j :: 0 <= i < |mounts| && 0 <= j < |agent.mounts| && agent.mounts[j].destination != CONTROL ==>
      !PathsOverlap(mounts[i].source, agent.mounts[j].source)
  }

  predicate HoldsSocket(mount: Option<Mount>) {
    mount.Some? && mount.value.kind == "bind"
  }

  predicate BindsControl(mount: Option<Mount>, control: string) {
    mount.Some? && (mount.value.kind == "bind" || mount.value.kind == "volume") && mount.value.writable
    && mount.value.source == control
  }

  /** What an updater of this agent is: recognised by what it is, not by its name. */
  predicate IsUpdater(target: string, container: Container, agent: Container) {
    && container.decodes && container.id != "" && container.id != agent.id && container.name != target
    && container.cmd == [HELPER_COMMAND] && container.namesAgent
    && !container.privileged && container.network != "host" && container.officialImage
    && ControlOf(agent) != ""
    && HoldsSocket(LastAt(container.mounts, SOCKET))
    && BindsControl(LastAt(container.mounts, CONTROL), ControlOf(agent))
    && SharesNothing(container.mounts, agent)
  }

  /** The one mount an agent may never have; a container with it is refused as an agent. */
  predicate AcceptableAsAgent(container: Container) {
    forall i :: 0 <= i < |container.mounts| ==> container.mounts[i].destination != SOCKET
  }

  lemma {:induction false} LastAtIsThere(mounts: seq<Mount>, destination: string)
    requires LastAt(mounts, destination).Some?
    ensures exists i :: 0 <= i < |mounts| && mounts[i].destination == destination
  {
    var last := |mounts| - 1;
    if mounts[last].destination != destination {
      LastAtIsThere(mounts[..last], destination);
      var i :| 0 <= i < last && mounts[..last][i].destination == destination;
      assert mounts[i].destination == destination;
    }
  }

  /** Nothing is both an updater and a container the helper would accept as the agent it upgrades. */
  lemma UpdaterIsNeverAnAgent(target: string, container: Container, agent: Container)
    requires IsUpdater(target, container, agent)
    ensures !AcceptableAsAgent(container)
  {
    LastAtIsThere(container.mounts, SOCKET);
  }

  method FindControl(agent: Container) returns (control: string)
    ensures control == ControlOf(agent)
  {
    control := "";
    for i := 0 to |agent.mounts|
      invariant control == (var m := LastAt(agent.mounts[..i], CONTROL); if m.None? then "" else m.value.source)
    {
      assert agent.mounts[..i + 1][..i] == agent.mounts[..i];
      if agent.mounts[i].destination == CONTROL {
        control := agent.mounts[i].source;
      }
    }
    assert agent.mounts[..|agent.mounts|] == agent.mounts;
  }

  method Overlapping(mount: Mount, agent: Container) returns (shares: bool)
    ensures shares <==> !SharesNothing([mount], agent)
  {
    for j := 0 to |agent.mounts|
      invariant forall k :: 0 <= k < j && agent.mounts[k].destination != CONTROL ==>
                              !PathsOverlap(mount.source, agent.mounts[k].source)
    {
      if agent.mounts[j].destination != CONTROL && PathsOverlap(mount.source, agent.mounts[j].source) {
        assert [mount][0] == mount;
        return true;
      }
    }
    return false;
  }

  method IsUpdaterContainer(target: string, container: Container, agent: Container) returns (updater: bool)
    ensures updater <==> IsUpdater(target, container, agent)
  {
    hide PathsOverlap;
    if !container.decodes || container.id == "" || container.id == agent.id
       || container.name == target { return false; }
    if container.cmd != [HELPER_COMMAND] || !container.namesAgent { return false; }
    if container.privileged || container.network == "host" || !container.officialImage { return false; }
    var agentControl := FindControl(agent);
    if agentControl == "" { return false; }
    var mounts, socket, control := container.mounts, false, false;
    for i := 0 to |mounts|
      invariant socket == HoldsSocket(LastAt(mounts[..i], SOCKET))
                && control == BindsControl(LastAt(mounts[..i], CONTROL), agentControl)
      invariant SharesNothing(mounts[..i], agent)
    {
      assert mounts[..i + 1][..i] == mounts[..i];
      if mounts[i].destination == SOCKET {
        socket := mounts[i].kind == "bind";
      } else if mounts[i].destination == CONTROL {
        control := (mounts[i].kind == "bind" || mounts[i].kind == "volume") && mounts[i].writable
                   && mounts[i].source == agentControl;
      }
      var shares := Overlapping(mounts[i], agent);
      if shares {
        ShareFound(mounts, i, agent);
        return false;
      }
      ShareStep(mounts, i, agent);
    }
    assert mounts[..|mounts|] == mounts;
    return socket && control;
  }

  lemma ShareFound(mounts: seq<Mount>, i: nat, agent: Container)
    requires i < |mounts| && !SharesNothing([mounts[i]], agent)
    ensures !SharesNothing(mounts, agent)
  {
    hide PathsOverlap;
    var k, j :| 0 <= k < 1 && 0 <= j < |agent.mounts| && agent.mounts[j].destination != CONTROL
    && PathsOverlap([mounts[i]][k].source, agent.mounts[j].source);
    assert PathsOverlap(mounts[i].source, agent.mounts[j].source);
  }

  lemma ShareStep(mounts: seq<Mount>, i: nat, agent: Container)
    requires i < |mounts| && SharesNothing(mounts[..i], agent) && SharesNothing([mounts[i]], agent)
    ensures SharesNothing(mounts[..i + 1], agent)
  {
    hide PathsOverlap;
    assert [mounts[i]][0] == mounts[i];
    assert forall k :: 0 <= k < i ==> mounts[..i][k] == mounts[k];
  }

  // --------------------------------------------------------------------- the guard

  datatype Op = OpCreate | OpStart | OpStop | OpRename | OpRemove | OpOther

  /** One call that changes something, as the handover asks for it. */
  datatype Mutation = Mutation(op: Op, target: string, rename: string, source: Container, officialReference: bool,
                               validName: bool)

  /**
    * A call that reached the engine: what it did, to which container, which name it gave, and the
    * agent as it was read first.
    */
  datatype Effect = Effect(op: Op, subject: Container, name: string, agent: Container)

  /** A look at a container: what was asked for, and what was found; missing if the engine has none such. */
  datatype Look = Look(reference: string, found: Option<Container>, missing: bool)

  datatype Outcome = Acted | RefusedIt | NotThere | NoAnswer

  /** A call the guard considers at all: on neither the agent nor its name, and giving nothing that name. */
  predicate Considered(target: string, m: Mutation, agent: Container) {
    && m.target != target && m.target != agent.id && !m.op.OpOther?
    && (m.op.OpCreate? ==> m.validName && m.officialReference)
    && (m.op.OpRename? ==> m.validName && m.rename != target)
  }

  /** What the call does to the container it is about. */
  function EffectOf(m: Mutation, subject: Container, agent: Container): Effect {
    Effect(m.op, subject, if m.op.OpCreate? then m.target else if m.op.OpRename? then m.rename else subject.name, agent)
  }

  /**
    * The agent, and its name, are out of reach: the call is on an updater of the agent read first,
    * or clones one, and gives nothing the agent's name.
    */
  predicate Harmless(target: string, e: Effect) {
    && IsUpdater(target, e.subject, e.agent) && e.subject.id != e.agent.id && e.name != target
    && !AcceptableAsAgent(e.subject)
  }

  class Host {
    const target: string
    var containers: map<Id, Container>
    ghost var effects: seq<Effect>
    ghost var looks: seq<Look>

    constructor (target: string, containers: map<Id, Container>)
      ensures this.target == target && effects == [] && looks == []
    {
      this.target, this.containers, effects, looks := target, containers, [], [];
    }

    /** Others rename, remove and create containers meanwhile; an identity is never given to another container. */
    method Meanwhile(known: Option<Container>)
      modifies this`containers
      ensures known.Some? && known.value.id in containers ==>
                containers[known.value.id].(name := "") == known.value.(name := "")
    {
      var next: map<Id, Container> := *;
      containers := next;
      if known.Some? && known.value.id in next && next[known.value.id].(name := "") != known.value.(name := "") {
        containers := next - {known.value.id};
      }
    }

    /** Looks a container up by identity or by name; the history holds every look. */
    method Inspect(reference: string) returns (found: Option<Container>, missing: bool)
      modifies this`looks
      ensures found.Some? ==> found.value in containers.Values && !missing
      ensures looks == old(looks) + [Look(reference, found, missing)]
    {
      found, missing := None, false;
      var answers: bool, named: Option<Id> := *, *;
      if answers {
        if reference in containers {
          found := Some(containers[reference]);
        } else if named.Some? && named.value in containers && containers[named.value].name == reference {
          found := Some(containers[named.value]);
        } else {
          missing := true;
        }
      }
      looks := looks + [Look(reference, found, missing)];
    }

    /**
      * The only way the handover changes anything: at most one call reaches the engine, and only a
      * harmless one. The agent is looked at first, and what the call is about next, unless the call is
      * to make it. The call is made exactly if both were found, it is one the guard considers, and it is
      * about an updater of that agent or clones one.
      */
    method MutateUpdater(m: Mutation) returns (outcome: Outcome)
      modifies this
      ensures var n := |old(looks)|;
              |looks| > n && looks[..n] == old(looks) && looks[n].reference == target
      ensures var n := |old(looks)|;
              && (|looks| == n + 2 <==> looks[n].found.Some? && Considered(target, m, looks[n].found.value)
                                        && !m.op.OpCreate?)
              && |looks| <= n + 2 && (|looks| == n + 2 ==> looks[n + 1].reference == m.target)
      ensures var n := |old(looks)|;
              outcome.Acted? <==> && looks[n].found.Some? && Considered(target, m, looks[n].found.value)
                                  && var subject := if m.op.OpCreate? then Some(m.source) else looks[n + 1].found;
                                     subject.Some? && IsUpdater(target, subject.value, looks[n].found.value)
      ensures var n := |old(looks)|;
              && (outcome.NotThere? <==> |looks| == n + 2 && looks[n + 1].missing)
              && (outcome.NoAnswer? <==> |looks| == n + 2 && looks[n + 1].found.None? && !looks[n + 1].missing)
      ensures var n := |old(looks)|;
              outcome.Acted? ==>
                && effects == old(effects)
                              + [EffectOf(m, if m.op.OpCreate? then m.source else looks[n + 1].found.value,
                                          looks[n].found.value)]
                && Harmless(target, effects[|old(effects)|])
      ensures !outcome.Acted? ==> effects == old(effects)
    {
      hide IsUpdater, AcceptableAsAgent;
      var agent, _ := Inspect(target);
      if agent.None? { return RefusedIt; }
      Meanwhile(agent);
      if m.target == target || m.target == agent.value.id { return RefusedIt; }
      if m.op.OpOther? { return RefusedIt; }
      if m.op.OpCreate? {
        if !m.validName || !m.officialReference { return RefusedIt; }
        var clones := IsUpdaterContainer(target, m.source, agent.value);
        if !clones { return RefusedIt; }
        Act(Effect(OpCreate, m.source, m.target, agent.value));
        return Acted;
      }
      if m.op.OpRename? && (!m.validName || m.rename == target) { return RefusedIt; }
      var current, missing := Inspect(m.target);
      if current.None? { return if missing then NotThere else NoAnswer; }
      var updater := IsUpdaterContainer(target, current.value, agent.value);
      if !updater { return RefusedIt; }
      UpdaterIsAnother(target, current.value, agent.value);
      Meanwhile(current);
      Act(Effect(m.op, current.value, if m.op.OpRename? then m.rename else current.value.name, agent.value));
      return Acted;
    }

    /** The call is made on the identity that was checked, whatever its name has become. */
    method Act(e: Effect)
      requires IsUpdater(target, e.subject, e.agent) && e.name != target
      modifies this`containers, this`effects
      ensures effects == old(effects) + [e] && Harmless(target, e)
    {
      UpdaterIsNeverAnAgent(target, e.subject, e.agent);
      UpdaterIsAnother(target, e.subject, e.agent);
      effects := effects + [e];
      Meanwhile(Some(e.subject));
    }
  }

  lemma UpdaterIsAnother(target: string, container: Container, agent: Container)
    requires IsUpdater(target, container, agent)
    ensures container.id != agent.id && container.name != target
  {
  }
}
