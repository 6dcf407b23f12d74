// Choosing the listener of a Strimzi Kafka cluster, its bootstrap address, and the security
// protocol that follows.
module Listener {
  import opened Wrappers
  import opened Sorting
  import opened Durations

  // A listener of the spec: each field as it reads when it has the expected JSON type.
  datatype Listener = Listener(
    name: Option<string>,
    port: Option<int>,
    tls: Option<bool>,
    kind: Option<string>,
    authentication: Option<string>)

  datatype StatusListener = StatusListener(name: Option<string>, bootstrapServers: Option<string>)

  datatype KafkaCluster = KafkaCluster(
    name: string,
    listeners: Option<seq<Listener>>,
    statusListeners: Option<seq<StatusListener>>)

  datatype AuthenticationType = TlsAuth | ScramSha512Auth

  datatype SelectedListener = SelectedListener(name: string, port: int, tls: bool)

  datatype Connection = Connection(bootstrapServers: string, tls: bool, listener: string)

  datatype ConnectionError = NoListeners | UnknownListener(name: string) | NoCompatibleListener

  predicate AuthMatches(l: Listener, desired: Option<AuthenticationType>) {
    match desired
    case None => l.authentication.None?
    case Some(TlsAuth) => l.authentication == Some("tls")
    case Some(ScramSha512Auth) => l.authentication == Some("scram-sha-512")
  }

  predicate InCluster(l: Listener) { l.kind.None? || l.kind == Some("internal") || l.kind == Some("cluster-ip") }

  predicate Encrypted(l: Listener) { l.tls.GetOr(false) }

  function ToSelected(l: Listener): SelectedListener {
    SelectedListener(l.name.GetOr("unnamed"), l.port.GetOr(9092), Encrypted(l))
  }

  // The order of the keys `(external, plaintext, index)`, false before true.
  predicate KeyLess(a: (bool, bool, nat), b: (bool, bool, nat)) {
    if a.0 != b.0 then b.0 else if a.1 != b.1 then b.1 else a.2 < b.2
  }

  function Key(ls: seq<Listener>, i: nat): (bool, bool, nat)
    requires i < |ls|
  {
    (!InCluster(ls[i]), !Encrypted(ls[i]), i)
  }

  // `min_by_key` over the compatible ones among the first n.
  function BestAmong(ls: seq<Listener>, desired: Option<AuthenticationType>, n: nat): (r: Option<nat>)
    requires n <= |ls|
    ensures r.Some? ==> r.value < n
  {
    if n == 0 then None
    else
      var best := BestAmong(ls, desired, n - 1);
      if AuthMatches(ls[n - 1], desired) && (best.None? || KeyLess(Key(ls, n - 1), Key(ls, best.value)))
      then Some(n - 1) else best
  }

  function FindListener(ls: seq<Listener>, name: string): (r: Option<Listener>)
    ensures r.Some? ==> r.value in ls && r.value.name == Some(name)
    ensures r.None? ==> forall l :: l in ls ==> l.name != Some(name)
  {
    if ls == [] then None else if ls[0].name == Some(name) then Some(ls[0]) else FindListener(ls[1..], name)
  }

  function SelectListener(ls: seq<Listener>, desired: Option<AuthenticationType>, listener: Option<string>)
    : (r: Result<SelectedListener, ConnectionError>)
  {
    if listener.Some? then
      var found := FindListener(ls, listener.value);
      if found.Some? then Ok(ToSelected(found.value)) else Err(UnknownListener(listener.value))
    else
      var best := BestAmong(ls, desired, |ls|);
      if best.Some? then Ok(ToSelected(ls[best.value])) else Err(NoCompatibleListener)
  }

  function FindStatus(entries: seq<StatusListener>, name: string): Option<StatusListener> {
    if entries == [] then None else if entries[0].name == Some(name) then Some(entries[0]) else FindStatus(entries[1..], name)
  }

  function Conventional(cluster: string, namespace: string, port: int): string {
    cluster + "-kafka-bootstrap." + namespace + ".svc:" + Numeral(port)
  }

  function BootstrapForListener(k: KafkaCluster, namespace: string, selected: SelectedListener): string {
    var found := if k.statusListeners.Some? then FindStatus(k.statusListeners.value, selected.name) else None;
    if found.Some? && found.value.bootstrapServers.Some? then found.value.bootstrapServers.value
    else Conventional(k.name, namespace, selected.port)
  }

  function ResolveConnection(k: KafkaCluster, namespace: string, desired: Option<AuthenticationType>, listener: Option<string>)
    : (r: Result<Connection, ConnectionError>)
  {
    if k.listeners.None? || k.listeners.value == [] then Err(NoListeners)
    else match SelectListener(k.listeners.value, desired, listener)
      case Err(e) => Err(e)
      case Ok(selected) => Ok(Connection(BootstrapForListener(k, namespace, selected), selected.tls, selected.name))
  }

  ghost predicate Compatible(ls: seq<Listener>, desired: Option<AuthenticationType>, i: nat) {
    i < |ls| && AuthMatches(ls[i], desired)
  }

  ghost predicate Optimal(ls: seq<Listener>, desired: Option<AuthenticationType>, i: nat) {
    && Compatible(ls, desired, i)
    && forall j: nat :: Compatible(ls, desired, j) && j != i ==> KeyLess(Key(ls, i), Key(ls, j))
  }

  lemma {:induction false} BestAmongExact(ls: seq<Listener>, desired: Option<AuthenticationType>, n: nat)
    requires n <= |ls|
    ensures var best := BestAmong(ls, desired, n);
            if best.None? then forall j: nat :: j < n ==> !Compatible(ls, desired, j)
            else Compatible(ls, desired, best.value)
                 && forall j: nat :: j < n && Compatible(ls, desired, j) && j != best.value ==> KeyLess(Key(ls, best.value), Key(ls, j))
  {
    if n > 0 { BestAmongExact(ls, desired, n - 1); }
  }

  // The listener chosen without an override is the one optimum on (external, plaintext,
  // position) among the compatible ones; the choice fails exactly when there are none.
  lemma ChoiceIsOptimal(ls: seq<Listener>, desired: Option<AuthenticationType>, i: nat)
    ensures BestAmong(ls, desired, |ls|) == Some(i) <==> Optimal(ls, desired, i)
    ensures SelectListener(ls, desired, None).Err? <==> forall j: nat :: !Compatible(ls, desired, j)
    ensures Optimal(ls, desired, i) ==> SelectListener(ls, desired, None) == Ok(ToSelected(ls[i]))
  {
    BestAmongExact(ls, desired, |ls|);
  }

  // An external listener is chosen only when every compatible one is external, a plaintext one
  // only when every compatible one that is as reachable is plaintext.
  lemma ChoiceReachAndTls(ls: seq<Listener>, desired: Option<AuthenticationType>, i: nat)
    requires Optimal(ls, desired, i)
    ensures !Reachable(ls[i]) <==> forall j: nat :: Candidate(ls, desired, j) ==> !Reachable(ls[j])
    ensures ls[i].tls != Some(true) <==>
            forall j: nat :: Candidate(ls, desired, j) && Reachable(ls[j]) == Reachable(ls[i]) ==> ls[j].tls != Some(true)
  {
    assert forall j: nat :: Compatible(ls, desired, j) <==> Candidate(ls, desired, j);
  }

  // The authentication type a listener must declare, and what is asked of its other fields.
  function Wanted(desired: Option<AuthenticationType>): Option<string> {
    match desired
    case None => None
    case Some(TlsAuth) => Some("tls")
    case Some(ScramSha512Auth) => Some("scram-sha-512")
  }

  predicate Candidate(ls: seq<Listener>, desired: Option<AuthenticationType>, i: nat) {
    i < |ls| && ls[i].authentication == Wanted(desired)
  }

  predicate Reachable(l: Listener) { l.kind in {None, Some("internal"), Some("cluster-ip")} }

  // The first candidate that is reachable if any is, and has TLS if any as reachable has it.
  ghost predicate Chosen(ls: seq<Listener>, desired: Option<AuthenticationType>, i: nat) {
    && Candidate(ls, desired, i)
    && (Reachable(ls[i]) <==> exists j: nat :: Candidate(ls, desired, j) && Reachable(ls[j]))
    && (ls[i].tls == Some(true) <==>
          exists j: nat :: Candidate(ls, desired, j) && Reachable(ls[j]) == Reachable(ls[i]) && ls[j].tls == Some(true))
    && (forall j: nat :: j < i && Candidate(ls, desired, j) ==>
          Reachable(ls[j]) != Reachable(ls[i]) || (ls[j].tls == Some(true)) != (ls[i].tls == Some(true)))
  }

  lemma OptimalIsChosen(ls: seq<Listener>, desired: Option<AuthenticationType>, i: nat)
    requires Optimal(ls, desired, i)
    ensures Chosen(ls, desired, i)
  {
    assert forall j: nat :: Compatible(ls, desired, j) <==> Candidate(ls, desired, j);
  }

  // The choice on the fields: it fails exactly when no listener declares the authentication, and
  // otherwise is the chosen one, with the name, port and TLS it declares or the defaults.
  lemma ChoiceOnFields(ls: seq<Listener>, desired: Option<AuthenticationType>)
    ensures var r := SelectListener(ls, desired, None);
            if r.Err? then r == Err(NoCompatibleListener) && forall j: nat :: !Candidate(ls, desired, j)
            else exists i: nat :: Chosen(ls, desired, i)
                   && r.value == SelectedListener(ls[i].name.GetOr("unnamed"), ls[i].port.GetOr(9092), ls[i].tls == Some(true))
  {
    var best := BestAmong(ls, desired, |ls|);
    assert forall j: nat :: Compatible(ls, desired, j) <==> Candidate(ls, desired, j);
    if best.Some? {
      ChoiceIsOptimal(ls, desired, best.value);
      OptimalIsChosen(ls, desired, best.value);
    } else {
      BestAmongExact(ls, desired, |ls|);
    }
  }

  // No two listeners fit that description.
  lemma ChosenIsOne(ls: seq<Listener>, desired: Option<AuthenticationType>, i: nat, j: nat)
    requires Chosen(ls, desired, i) && Chosen(ls, desired, j)
    ensures i == j
  {
  }

  // The first listener of a name.
  ghost predicate FirstNamed(ls: seq<Listener>, name: string, i: nat) {
    i < |ls| && ls[i].name == Some(name) && forall k :: 0 <= k < i ==> ls[k].name != Some(name)
  }

  lemma {:induction false} FindListenerIsFirst(ls: seq<Listener>, name: string, i: nat)
    requires FirstNamed(ls, name, i)
    ensures FindListener(ls, name) == Some(ls[i])
  {
    if i > 0 { FindListenerIsFirst(ls[1..], name, i - 1); }
  }

  // An override takes the first listener of that name, whatever its authentication, and fails
  // exactly when no listener has the name.
  lemma OverrideByName(ls: seq<Listener>, desired: Option<AuthenticationType>, name: string)
    ensures SelectListener(ls, desired, Some(name)).Err? <==> forall l :: l in ls ==> l.name != Some(name)
    ensures forall i: nat :: FirstNamed(ls, name, i) ==>
              SelectListener(ls, desired, Some(name)) ==
              Ok(SelectedListener(name, ls[i].port.GetOr(9092), ls[i].tls == Some(true)))
  {
    forall i: nat | FirstNamed(ls, name, i) ensures FindListener(ls, name) == Some(ls[i]) {
      FindListenerIsFirst(ls, name, i);
    }
  }

  function NamedStatus(name: string): StatusListener -> bool { (e: StatusListener) => e.name == Some(name) }

  lemma {:induction false} FindStatusIsFirst(entries: seq<StatusListener>, name: string)
    ensures var named := Filter(NamedStatus(name), entries);
            FindStatus(entries, name) == if named == [] then None else Some(named[0])
  {
    if entries != [] { FindStatusIsFirst(entries[1..], name); }
  }

  // The bootstrap address is that of the first status entry of the listener's name, wherever it
  // stands, or the conventional one.
  lemma BootstrapByName(k: KafkaCluster, namespace: string, selected: SelectedListener)
    ensures var named := Filter(NamedStatus(selected.name), k.statusListeners.GetOr([]));
            BootstrapForListener(k, namespace, selected) ==
              if named != [] && named[0].bootstrapServers.Some? then named[0].bootstrapServers.value
              else k.name + "-kafka-bootstrap." + namespace + ".svc:" + Numeral(selected.port)
  {
    FindStatusIsFirst(k.statusListeners.GetOr([]), selected.name);
  }

  // The connection of a cluster with listeners: the chosen one's security, name and address.
  lemma ConnectionIsOfChosen(k: KafkaCluster, namespace: string, desired: Option<AuthenticationType>, i: nat)
    requires k.listeners.Some? && Chosen(k.listeners.value, desired, i)
    ensures var l := k.listeners.value[i];
            var name := l.name.GetOr("unnamed");
            var named := Filter(NamedStatus(name), k.statusListeners.GetOr([]));
            ResolveConnection(k, namespace, desired, None) ==
              Ok(Connection(if named != [] && named[0].bootstrapServers.Some? then named[0].bootstrapServers.value
                            else k.name + "-kafka-bootstrap." + namespace + ".svc:" + Numeral(l.port.GetOr(9092)),
                            l.tls == Some(true), name))
  {
    ChoiceOnFields(k.listeners.value, desired);
    var j: nat :| Chosen(k.listeners.value, desired, j)
                  && SelectListener(k.listeners.value, desired, None).value ==
                     SelectedListener(k.listeners.value[j].name.GetOr("unnamed"), k.listeners.value[j].port.GetOr(9092),
                                      k.listeners.value[j].tls == Some(true));
    ChosenIsOne(k.listeners.value, desired, i, j);
    BootstrapByName(k, namespace, SelectListener(k.listeners.value, desired, None).value);
  }

  // Why a cluster cannot be resolved.
  lemma ConnectionFailsIff(k: KafkaCluster, namespace: string, desired: Option<AuthenticationType>, listener: Option<string>)
    ensures var r, ls := ResolveConnection(k, namespace, desired, listener), k.listeners.GetOr([]);
            && (r == Err(NoListeners) <==> ls == [])
            && (r == Err(NoCompatibleListener) <==> ls != [] && listener.None? && forall j: nat :: !Candidate(ls, desired, j))
            && (forall name :: r == Err(UnknownListener(name)) <==>
                  ls != [] && listener == Some(name) && forall l :: l in ls ==> l.name != Some(name))
  {
    var ls := k.listeners.GetOr([]);
    if listener.None? { ChoiceOnFields(ls, desired); } else { OverrideByName(ls, desired, listener.value); }
  }

  lemma BootstrapIgnoresOthers(k: KafkaCluster, other: KafkaCluster, namespace: string, selected: SelectedListener)
    requires k.name == other.name
    requires Filter(NamedStatus(selected.name), k.statusListeners.GetOr([])) ==
             Filter(NamedStatus(selected.name), other.statusListeners.GetOr([]))
    ensures BootstrapForListener(k, namespace, selected) == BootstrapForListener(other, namespace, selected)
  {
    BootstrapByName(k, namespace, selected);
    BootstrapByName(other, namespace, selected);
  }
}
