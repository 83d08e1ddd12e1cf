/** The Docker client: find-or-create and find-and-remove on the daemon's networks and containers, call by call. It
    tells its own objects by their labels and refuses networks that carry its names but not its labels. */
module Docker {
  import opened Common
  import opened Faults
  import opened Names
  import opened Store
  import Host

  /** `owner` is the deployment of a network labelled as managed. */
  datatype Network = Network(bridge: bool, inner: bool, owner: Option<string>, role: string, attached: set<string>, gateway: string)

  /** A container; `owner` is the deployment of one labelled as managed. */
  datatype Box = Box(name: string, owner: Option<string>, made: Host.Container)

  type Boxes = map<string, Box>

  const FRONT := "frontend"
  const BACK := "backend"

  /** validateNetwork. */
  predicate Matches(n: Network, inner: bool, id: string, role: string) {
    n.bridge && n.inner == inner && n.owner == Some(Lower(id)) && n.role == role
  }

  type Nets = map<string, Network>

  /** Neither of the deployment's network names is taken by a network that is not its own. */
  predicate Fits(nets: Nets, id: string, names: Networks) {
    && (names.frontend in nets ==> Matches(nets[names.frontend], false, id, FRONT))
    && (names.backend in nets ==> Matches(nets[names.backend], true, id, BACK))
  }

  /** Only networks with the deployment's two names may differ. */
  ghost predicate OthersSame(before: Nets, after: Nets, names: Networks) {
    before - {names.frontend, names.backend} == after - {names.frontend, names.backend}
  }

  /** A network that was there is still there, with at most more containers attached. */
  predicate Keeps(before: Nets, after: Nets, name: string) {
    name in before ==>
      name in after && after[name] == before[name].(attached := after[name].attached) && before[name].attached <= after[name].attached
  }

  ghost predicate EnsurePromise(before: Nets, after: Nets, id: string, names: Networks, traefik: string, ok: bool) {
    && OthersSame(before, after, names) && Keeps(before, after, names.frontend) && Keeps(before, after, names.backend)
    && (!Fits(before, id, names) ==> !ok)
    && (Fits(before, id, names) ==> Fits(after, id, names))
    && (ok ==>
          && names.frontend in after && names.backend in after && Fits(after, id, names)
          && traefik in after[names.frontend].attached && after[names.backend].gateway != "")
    && (names.backend in after && names.backend !in before ==> names.frontend in after)
  }

  ghost predicate RemovePromise(before: Nets, after: Nets, id: string, names: Networks, ok: bool) {
    && OthersSame(before, after, names)
    && (!Fits(before, id, names) ==> after == before && !ok)
    && (Fits(before, id, names) ==> Fits(after, id, names))
    && (names.frontend in after ==> names.frontend in before)
    && (names.backend in after ==> names.backend in before && after[names.backend] == before[names.backend])
    && (names.backend in before && names.backend !in after ==> names.frontend !in after)
    && (ok ==> names.frontend !in after && names.backend !in after)
  }

  ghost predicate Owns(boxes: Boxes, id: string, k: string) {
    k in boxes && boxes[k].owner == Some(id)
  }

  /** At most one container carries the deployment's labels. */
  ghost predicate AtMostOne(boxes: Boxes, id: string) {
    forall k, l :: Owns(boxes, id, k) && Owns(boxes, id, l) ==> k == l
  }

  /** The containers with the deployment's labels as the procedures of the agent see them. */
  ghost function Found(boxes: Boxes, id: string): Host.Labelled {
    if forall k :: !Owns(boxes, id, k) then Host.Absent
    else if AtMostOne(boxes, id) then
      var k :| Owns(boxes, id, k);
      Host.Single(boxes[k].made)
    else Host.Several
  }

  lemma FoundOne(boxes: Boxes, id: string, k: string)
    requires Owns(boxes, id, k) && AtMostOne(boxes, id)
    ensures Found(boxes, id) == Host.Single(boxes[k].made)
  {
  }

  ghost predicate OtherBoxesSame(before: Boxes, after: Boxes, id: string) {
    forall k :: (k in before && before[k].owner != Some(id)) || (k in after && after[k].owner != Some(id)) ==>
      k in before && k in after && after[k] == before[k]
  }

  predicate NameFree(boxes: Boxes, name: string) {
    forall k | k in boxes :: boxes[k].name != name
  }

  ghost predicate CreatePromise(before: Boxes, after: Boxes, id: string, request: Request, ok: bool) {
    var panel := Host.Single(Host.Container(Host.Panel(request), false));
    && OtherBoxesSame(before, after, id)
    && (after == before || (Found(before, id).Absent? && Found(after, id) == panel))
    && (ok ==> Found(after, id).Single?)
  }

  ghost predicate RunPromise(before: Boxes, after: Boxes, id: string, running: bool, ok: bool) {
    && OtherBoxesSame(before, after, id)
    && (after == before || (Found(before, id).Single? && Found(after, id) == Host.Single(Found(before, id).value.(running := running))))
    && (ok && Found(before, id).Single? ==> Found(after, id) == Host.Single(Found(before, id).value.(running := running)))
    && (Found(before, id).Several? ==> !ok)
  }

  ghost predicate DropPromise(before: Boxes, after: Boxes, id: string, ok: bool) {
    && OtherBoxesSame(before, after, id)
    && (after == before || (Found(before, id).Single? && Found(after, id).Absent?))
    && (ok ==> Found(after, id).Absent?)
  }

  ghost predicate UtilityPromise(before: Boxes, after: Boxes, id: string, request: Request, key: string) {
    && OtherBoxesSame(before, after, id)
    && (after == before
        || (key in after && after == before[key := after[key]] && after[key].owner == Some(id) && after[key].made.spec == Host.Spec(request, true)))
  }

  class Client {
    var networks: Nets
    var boxes: Boxes
    const traefik: string

    constructor (networks: Nets, boxes: Boxes, traefik: string)
      ensures this.networks == networks && this.boxes == boxes && this.traefik == traefik
    {
      this.networks, this.boxes, this.traefik := networks, boxes, traefik;
    }

    /** ensureNetwork, with calls k to k + 2. */
    method EnsureNetwork(name: string, inner: bool, id: string, role: string, gateway: string, fates: seq<Fate>, k: nat)
      returns (ok: bool)
      modifies this`networks
      ensures networks == old(networks) || (name !in old(networks)
        && networks == old(networks)[name := Network(true, inner, Some(Lower(id)), role, {}, gateway)])
      ensures ok ==> name in networks && Matches(networks[name], inner, id, role)
      ensures ok ==> networks[name].bridge && networks[name].inner == inner && networks[name].owner == Some(Lower(id)) && networks[name].role == role
      ensures name in old(networks) && !Matches(old(networks)[name], inner, id, role) ==> !ok
      ensures Faultless(fates) ==> (ok <==> name !in old(networks) || Matches(old(networks)[name], inner, id, role))
    {
      WorksIn(fates, k);
      WorksIn(fates, k + 1);
      WorksIn(fates, k + 2);
      hide Faultless, At, Lower;
      if At(fates, k) != Works {
        return false;
      }
      if name in networks {
        return Matches(networks[name], inner, id, role);
      }
      if At(fates, k + 1) != Breaks {
        networks := networks[name := Network(true, inner, Some(Lower(id)), role, {}, gateway)];
      }
      return At(fates, k + 1) == Works && At(fates, k + 2) == Works && Matches(networks[name], inner, id, role);
    }

    /** connectTraefik: the proxy joins the frontend network. */
    method ConnectTraefik(name: string, fates: seq<Fate>, k: nat) returns (ok: bool)
      requires name in networks
      modifies this`networks
      ensures name in networks && networks == old(networks)[name := networks[name]]
      ensures networks[name] == old(networks)[name].(attached := networks[name].attached)
      ensures old(networks)[name].attached <= networks[name].attached
      ensures ok ==> traefik in networks[name].attached
      ensures Faultless(fates) ==> (ok <==> traefik != "")
    {
      WorksIn(fates, k);
      WorksIn(fates, k + 1);
      hide Faultless, At;
      assert networks[name := networks[name]] == networks;
      if traefik == "" || At(fates, k) != Works {
        return false;
      }
      if traefik in networks[name].attached {
        return true;
      }
      if At(fates, k + 1) != Breaks {
        networks := networks[name := networks[name].(attached := networks[name].attached + {traefik})];
      }
      return At(fates, k + 1) == Works;
    }

    /** EnsureDeploymentNetworks, for the deployment's two names. */
    method EnsureNetworks(id: string, names: Networks, gateway: string, fates: seq<Fate>) returns (ok: bool)
      requires names.frontend != names.backend
      modifies this`networks
      ensures EnsurePromise(old(networks), networks, id, names, traefik, ok)
      ensures Faultless(fates) ==>
        (ok <==> Fits(old(networks), id, names) && traefik != ""
                 && (if names.backend in old(networks) then old(networks)[names.backend].gateway else gateway) != "")
    {
      hide Faultless, At, Lower;
      ok := EnsureNetwork(names.frontend, false, id, FRONT, "", fates, 0);
      if !ok {
        return;
      }
      ok := EnsureNetwork(names.backend, true, id, BACK, gateway, fates, 3);
      if !ok {
        return;
      }
      ok := ConnectTraefik(names.frontend, fates, 6);
      ok := ok && networks[names.backend].gateway != "";
    }

    /** RemoveDeploymentNetworks, for the deployment's two names: both are looked at before either is touched. */
    method RemoveNetworks(id: string, names: Networks, fates: seq<Fate>) returns (ok: bool)
      requires names.frontend != names.backend
      modifies this`networks
      ensures RemovePromise(old(networks), networks, id, names, ok)
      ensures forall n | n in old(networks) && n !in networks ::
        (n == names.frontend || n == names.backend) && old(networks)[n].owner == Some(Lower(id))
      ensures Faultless(fates) ==> (ok <==> Fits(old(networks), id, names))
    {
      WorksIn(fates, 0);
      WorksIn(fates, 1);
      WorksIn(fates, 2);
      WorksIn(fates, 3);
      WorksIn(fates, 4);
      WorksIn(fates, 5);
      hide Faultless, At, Lower;
      if At(fates, 0) != Works || (names.frontend in networks && !Matches(networks[names.frontend], false, id, FRONT)) {
        return false;
      }
      if At(fates, 1) != Works || (names.backend in networks && !Matches(networks[names.backend], true, id, BACK)) {
        return false;
      }
      if names.frontend in networks {
        if At(fates, 2) != Works {
          return false;
        }
        if traefik in networks[names.frontend].attached {
          if At(fates, 3) != Breaks {
            networks := networks[names.frontend := networks[names.frontend].(attached := networks[names.frontend].attached - {traefik})];
          }
          if At(fates, 3) != Works {
            return false;
          }
        }
        if At(fates, 4) != Breaks {
          networks := networks - {names.frontend};
        }
        if At(fates, 4) != Works {
          return false;
        }
      }
      if names.backend in networks {
        if At(fates, 5) != Breaks {
          networks := networks - {names.backend};
        }
        return At(fates, 5) == Works;
      }
      return true;
    }

    // ---- Containers ----

    /** find: the managed container of the deployment, and whether there is more than one. */
    method Find(id: string) returns (found: Option<string>, many: bool)
      ensures many <==> !AtMostOne(boxes, id)
      ensures found.Some? ==> Owns(boxes, id, found.value)
      ensures found.None? ==> forall k :: !Owns(boxes, id, k)
    {
      found, many := None, false;
      var left := boxes.Keys;
      while left != {}
        invariant left <= boxes.Keys
        invariant found.Some? ==> Owns(boxes, id, found.value)
        invariant found.None? ==> forall k :: Owns(boxes, id, k) ==> k in left
        invariant many ==> !AtMostOne(boxes, id)
        invariant !many ==> forall k :: Owns(boxes, id, k) && k !in left ==> found == Some(k)
        invariant found.Some? ==> found.value !in left
        decreases |left|
      {
        var k :| k in left;
        if boxes[k].owner == Some(id) {
          assert Owns(boxes, id, k);
          many := many || found.Some?;
          found := if found.Some? then found else Some(k);
        }
        left := left - {k};
      }
    }

    /** CreateContainer: a container that is found is kept as it is, whatever it was made for. `key` is the id the
        daemon would give a new one. */
    method CreateContainer(id: string, request: Request, key: string, fates: seq<Fate>) returns (ok: bool)
      requires key !in boxes
      modifies this`boxes
      ensures CreatePromise(old(boxes), boxes, id, request, ok)
      ensures Faultless(fates) ==>
        (ok <==> Found(old(boxes), id).Single? || (Found(old(boxes), id).Absent? && NameFree(old(boxes), "centralpanel-" + id)))
    {
      WorksIn(fates, 0);
      WorksIn(fates, 1);
      hide Faultless, At;
      if At(fates, 0) != Works {
        return false;
      }
      var found, many := Find(id);
      if many || found.Some? {
        assert found.Some? ==> Owns(boxes, id, found.value);
        return !many;
      }
      var name := "centralpanel-" + id;
      if At(fates, 1) == Breaks || !NameFree(boxes, name) {
        return false;
      }
      boxes := boxes[key := Box(name, Some(id), Host.Container(Host.Panel(request), false))];
      assert forall k :: Owns(boxes, id, k) ==> k == key || Owns(old(boxes), id, k);
      FoundOne(boxes, id, key);
      return At(fates, 1) == Works;
    }

    /** ContainerStart or ContainerStop of the container `k`. */
    method SetRunning(id: string, k: string, running: bool, fate: Fate) returns (ok: bool)
      requires Owns(boxes, id, k) && AtMostOne(boxes, id)
      modifies this`boxes
      ensures RunPromise(old(boxes), boxes, id, running, ok) && ok == (fate == Works)
    {
      FoundOne(boxes, id, k);
      if fate != Breaks {
        boxes := boxes[k := boxes[k].(made := boxes[k].made.(running := running))];
        assert forall l :: Owns(boxes, id, l) <==> Owns(old(boxes), id, l);
        FoundOne(boxes, id, k);
      }
      return fate == Works;
    }

    /** StartContainer: without a container found the daemon is asked for one called by the deployment's id, and there
        is none. */
    method StartContainer(id: string, fates: seq<Fate>) returns (ok: bool)
      modifies this`boxes
      ensures RunPromise(old(boxes), boxes, id, true, ok)
      ensures Faultless(fates) ==> (ok <==> Found(old(boxes), id).Single?)
      ensures ok ==> Found(old(boxes), id).Single?
    {
      WorksIn(fates, 0);
      WorksIn(fates, 1);
      hide Faultless, At;
      if At(fates, 0) != Works {
        return false;
      }
      var found, many := Find(id);
      if many || found.None? {
        return false;
      }
      FoundOne(boxes, id, found.value);
      ok := SetRunning(id, found.value, true, At(fates, 1));
    }

    /** StopContainer: nothing to do when there is none. */
    method StopContainer(id: string, fates: seq<Fate>) returns (ok: bool)
      modifies this`boxes
      ensures RunPromise(old(boxes), boxes, id, false, ok)
      ensures Faultless(fates) ==> (ok <==> AtMostOne(old(boxes), id))
    {
      WorksIn(fates, 0);
      WorksIn(fates, 1);
      hide Faultless, At;
      if At(fates, 0) != Works {
        return false;
      }
      var found, many := Find(id);
      if many || found.None? {
        return !many;
      }
      FoundOne(boxes, id, found.value);
      ok := SetRunning(id, found.value, false, At(fates, 1));
    }

    /** RemoveContainer: nothing to do when there is none. */
    method RemoveContainer(id: string, fates: seq<Fate>) returns (ok: bool)
      modifies this`boxes
      ensures DropPromise(old(boxes), boxes, id, ok)
      ensures Faultless(fates) ==> (ok <==> AtMostOne(old(boxes), id))
    {
      WorksIn(fates, 0);
      WorksIn(fates, 1);
      hide Faultless, At;
      if At(fates, 0) != Works {
        return false;
      }
      var found, many := Find(id);
      if many || found.None? {
        return !many;
      }
      var k := found.value;
      FoundOne(boxes, id, k);
      if At(fates, 1) != Breaks {
        boxes := boxes - {k};
        assert forall l :: Owns(boxes, id, l) ==> Owns(old(boxes), id, l) && l != k;
      }
      return At(fates, 1) == Works;
    }

    /** The utility is started and waited for. */
    method WaitFor(key: string, fates: seq<Fate>, k: nat) returns (ok: bool)
      requires key in boxes
      modifies this`boxes
      ensures key in boxes && boxes == old(boxes)[key := boxes[key]]
      ensures boxes[key] == old(boxes)[key].(made := old(boxes)[key].made.(running := boxes[key].made.running))
      ensures ok <==> At(fates, k) == Works && At(fates, k + 1) == Works
    {
      WorksIn(fates, k);
      WorksIn(fates, k + 1);
      hide Faultless, At;
      assert boxes[key := boxes[key]] == boxes;
      if At(fates, k) != Breaks {
        boxes := boxes[key := boxes[key].(made := boxes[key].made.(running := true))];
      }
      if At(fates, k) != Works {
        return false;
      }
      ok := At(fates, k + 1) == Works;
      if ok {
        boxes := boxes[key := boxes[key].(made := boxes[key].made.(running := false))];
      }
    }

    /** The backup manager's run: the utility works in a container of its own, under the panel's two labels, and the
        report of its removal is dropped. `key` and `name` are what the daemon would give it. */
    method RunUtility(id: string, request: Request, key: string, name: string, fates: seq<Fate>) returns (ok: bool)
      requires key !in boxes
      modifies this`boxes
      ensures UtilityPromise(old(boxes), boxes, id, request, key)
      ensures ok <==> At(fates, 0) == Works && At(fates, 1) == Works && At(fates, 2) == Works
      ensures boxes == old(boxes) <==> At(fates, 0) == Breaks || (At(fates, 0) == Works && At(fates, 3) != Breaks)
      ensures Faultless(fates) ==> ok && boxes == old(boxes)
    {
      WorksIn(fates, 0);
      WorksIn(fates, 1);
      WorksIn(fates, 2);
      WorksIn(fates, 3);
      hide Faultless, At;
      if At(fates, 0) == Breaks {
        return false;
      }
      boxes := boxes[key := Box(name, Some(id), Host.Container(Host.Spec(request, true), false))];
      assert key in boxes && key !in old(boxes);
      if At(fates, 0) != Works {
        return false;
      }
      ok := WaitFor(key, fates, 1);
      if At(fates, 3) != Breaks {
        boxes := boxes - {key};
        assert boxes == old(boxes);
      }
    }
  }

  // ---- Isolation ----

  /** A call for one deployment's networks leaves every other deployment's as they are. */
  lemma NetworksAreIsolated(before: Nets, after: Nets, id: string, other: string, name: string)
    requires ValidDeploymentId(id) && ValidDeploymentId(other) && Lower(id) != Lower(other)
    requires OthersSame(before, after, NetworkNames(id).value)
    requires name == NetworkNames(other).value.frontend || name == NetworkNames(other).value.backend
    ensures (name in before <==> name in after) && (name in before ==> after[name] == before[name])
  {
    NetworkNamesInjective(id, other);
    NetworkNamesInjective(other, id);
    var own := {NetworkNames(id).value.frontend, NetworkNames(id).value.backend};
    hide NetworkNames, ValidDeploymentId, Lower;
    assert name !in own;
    assert name in before - own <==> name in after - own;
    assert name in before ==> (before - own)[name] == (after - own)[name];
  }

  // ---- Refinement of the one-call daemon ----

  /** The deployment's networks as the procedures of the agent see them. */
  function Seen(x: Host.Objects, nets: Nets, names: Networks): Host.Objects {
    x.(frontend := names.frontend in nets, backend := names.backend in nets)
  }

  lemma EnsureRefinesHost(x: Host.Objects, before: Nets, after: Nets, id: string, names: Networks, traefik: string, ok: bool)
    requires EnsurePromise(before, after, id, names, traefik, ok)
    ensures exists o :: Host.EnsureNetworks(Seen(x, before, names), o) == Host.DockerReply(Seen(x, after, names), ok)
  {
    hide OthersSame, Fits;
    var s, t := Seen(x, before, names), Seen(x, after, names);
    if ok {
      assert Host.EnsureNetworks(s, Host.Ok) == Host.DockerReply(t, ok);
    } else if t == s {
      assert Host.EnsureNetworks(s, Host.Fail) == Host.DockerReply(t, ok);
    } else if t.backend {
      assert Host.EnsureNetworks(s, Host.Lost) == Host.DockerReply(t, ok);
    } else {
      assert Host.EnsureNetworks(s, Host.Partial) == Host.DockerReply(t, ok);
    }
  }

  lemma RemoveRefinesHost(x: Host.Objects, before: Nets, after: Nets, id: string, names: Networks, ok: bool)
    requires RemovePromise(before, after, id, names, ok)
    ensures exists o :: Host.RemoveNetworks(Seen(x, before, names), o) == Host.DockerReply(Seen(x, after, names), ok)
  {
    hide OthersSame, Fits;
    var s, t := Seen(x, before, names), Seen(x, after, names);
    if ok {
      assert Host.RemoveNetworks(s, Host.Ok) == Host.DockerReply(t, ok);
    } else if t == s {
      assert Host.RemoveNetworks(s, Host.Fail) == Host.DockerReply(t, ok);
    } else if t.backend {
      assert Host.RemoveNetworks(s, Host.Partial) == Host.DockerReply(t, ok);
    } else {
      assert Host.RemoveNetworks(s, Host.Lost) == Host.DockerReply(t, ok);
    }
  }

  /** The containers, likewise. */
  ghost function Holding(x: Host.Objects, boxes: Boxes, id: string): Host.Objects {
    x.(container := Found(boxes, id))
  }

  lemma CreateRefinesHost(x: Host.Objects, before: Boxes, after: Boxes, id: string, request: Request, ok: bool)
    requires CreatePromise(before, after, id, request, ok)
    ensures exists o :: Host.CreateContainer(Holding(x, before, id), request, o) == Host.DockerReply(Holding(x, after, id), ok)
  {
    hide Found;
    var s, t := Holding(x, before, id), Holding(x, after, id);
    if ok {
      assert Host.CreateContainer(s, request, Host.Ok) == Host.DockerReply(t, ok);
    } else if after == before {
      assert Host.CreateContainer(s, request, Host.Fail) == Host.DockerReply(t, ok);
    } else {
      assert Host.CreateContainer(s, request, Host.Lost) == Host.DockerReply(t, ok);
    }
  }

  lemma StartRefinesHost(x: Host.Objects, before: Boxes, after: Boxes, id: string, ok: bool)
    requires RunPromise(before, after, id, true, ok) && (ok ==> Found(before, id).Single?)
    ensures exists o :: Host.StartContainer(Holding(x, before, id), o) == Host.DockerReply(Holding(x, after, id), ok)
  {
    hide Found;
    var s, t := Holding(x, before, id), Holding(x, after, id);
    if ok {
      assert Host.StartContainer(s, Host.Ok) == Host.DockerReply(t, ok);
    } else if after == before {
      assert Host.StartContainer(s, Host.Fail) == Host.DockerReply(t, ok);
    } else {
      assert Host.StartContainer(s, Host.Lost) == Host.DockerReply(t, ok);
    }
  }

  lemma StopRefinesHost(x: Host.Objects, before: Boxes, after: Boxes, id: string, ok: bool)
    requires RunPromise(before, after, id, false, ok)
    ensures exists o :: Host.StopContainer(Holding(x, before, id), o) == Host.DockerReply(Holding(x, after, id), ok)
  {
    hide Found;
    var s, t := Holding(x, before, id), Holding(x, after, id);
    if ok {
      assert Host.StopContainer(s, Host.Ok) == Host.DockerReply(t, ok);
    } else if after == before {
      assert Host.StopContainer(s, Host.Fail) == Host.DockerReply(t, ok);
    } else {
      assert Host.StopContainer(s, Host.Lost) == Host.DockerReply(t, ok);
    }
  }

  lemma DropRefinesHost(x: Host.Objects, before: Boxes, after: Boxes, id: string, ok: bool)
    requires DropPromise(before, after, id, ok)
    ensures exists o :: Host.RemoveContainer(Holding(x, before, id), o) == Host.DockerReply(Holding(x, after, id), ok)
  {
    hide Found;
    var s, t := Holding(x, before, id), Holding(x, after, id);
    if ok {
      assert Host.RemoveContainer(s, Host.Ok) == Host.DockerReply(t, ok);
    } else if after == before {
      assert Host.RemoveContainer(s, Host.Fail) == Host.DockerReply(t, ok);
    } else {
      assert Host.RemoveContainer(s, Host.Lost) == Host.DockerReply(t, ok);
    }
  }

  /** A utility container that is left counts like a panel: the only one is found in its place, and beside another
      there are several. */
  lemma UtilityRefinesHost(x: Host.Objects, before: Boxes, after: Boxes, id: string, request: Request, key: string)
    requires key !in before && UtilityPromise(before, after, id, request, key)
    ensures exists leaves :: Host.WithHelper(Holding(x, before, id), request, leaves) == Holding(x, after, id)
  {
    var s, t := Holding(x, before, id), Holding(x, after, id);
    if after == before {
      assert Host.WithHelper(s, request, None) == t;
    } else {
      assert Owns(after, id, key) && !Owns(before, id, key);
      assert forall k :: Owns(before, id, k) ==> Owns(after, id, k) && k != key;
      assert forall k :: Owns(after, id, k) ==> k == key || Owns(before, id, k);
      var leaves := Some(after[key].made.running);
      if s.container.Absent? {
        assert AtMostOne(after, id);
        FoundOne(after, id, key);
      } else {
        var k :| Owns(before, id, k);
        assert Owns(after, id, k);
        assert !AtMostOne(after, id);
      }
      assert Host.WithHelper(s, request, leaves) == t;
    }
  }
}
