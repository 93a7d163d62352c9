/**
 * Normalising an accepted request into component payloads drops every field that the authority inventory
 * repeats; reconstruction puts it back. Fields that both sides copy unread are one opaque value each.
 */
module Payloads {
  import opened Foundation

  const ROLES: nat := 14
  type Role = r: nat | r < ROLES

  const INGRESS: Role := 8

  /** The roles that hold an application: the keys of the permission table, in its order. */
  const APP_ROLES: seq<Role> := [0, 1, 2, 4, 5, 6, 9, 10]

  predicate HasApp(role: Name) {
    role in APP_ROLES
  }

  /** The one identity text of a worker version; its parts can be read back from it. */
  datatype Identity = WorkerIdentity(account: Name, service: Name, version: Name) | OtherIdentity(text: Name)

  /** Every role has a binding name of its own. */
  function BindingOf(role: Role): Name {
    role
  }

  datatype Row = Row(role: Role, binding: Name, configuration: Name, service: Name, identity: Identity, commit: Name,
                     source: Name, projection: Name, version: Name)

  /** `extra` is whatever else is said about a private service. */
  datatype Service = Service(binding: Name, configuration: Name, service: Name, identity: Identity, commit: Name,
                             source: Name, projection: Name, version: Name, extra: map<Name, Name>)

  datatype Endpoint = HttpsOf(host: Name) | OtherEndpoint(text: Name)

  datatype Core = Core(hostname: Name, endpoint: Endpoint, rest: Name)

  /** Private services are under whatever names the request gives; roles are names. */
  datatype Broker = Broker(core: Core, account: Name, configuration: Name, privateServices: map<Name, Service>,
                           identity: Identity, commit: Name, source: Name, projection: Name, script: Name,
                           version: Name)

  datatype App = App(kept: Name, serviceBinding: Name, version: Name)

  datatype Kind = BootstrapDeny | FinalAuthority

  datatype Member = Member(kind: Kind, configuration: Name, percentage: nat, record: Name, recordDigest: Name,
                           etag: Name, source: Name, projection: Name, version: Name)

  datatype Deployment = Deployment(role: Role, id: Option<Name>, versions: seq<Member>, service: Name)

  datatype Network = Network(hostname: Name, rest: Name, service: Name)

  datatype Document = Document(authorities: seq<Row>, commit: Name, account: Name, a0: seq<Deployment>,
                               a1: seq<Deployment>, network: Network, receiptBindings: Name)

  /** The digest of a document is injective. */
  datatype Digest = DigestOf(document: Document) | OtherDigest(text: Name)

  const RECEIPT_BINDINGS: Name := 0

  datatype Request = Request(broker: Broker, apps: map<Name, App>, document: Document, digest: Digest)

  // ---- what a parsed expectation satisfies ----------------------------------------------------

  predicate RowOk(row: Row, role: Role, account: Name) {
    row.role == role && row.binding == BindingOf(role) && row.identity == WorkerIdentity(account, row.service, row.version)
  }

  predicate RowsInOrder(rows: seq<Row>, account: Name) {
    && |rows| == ROLES && (forall i :: 0 <= i < ROLES ==> RowOk(rows[i], i, account))
    && (forall i, j :: 0 <= i < j < ROLES ==> rows[i].version != rows[j].version && rows[i].service != rows[j].service)
  }

  predicate Sole(m: Member, kind: Kind, percentage: nat) {
    m.kind == kind && m.percentage == percentage
  }

  /** Before promotion the ingress serves the denying bootstrap; everything else serves its final version alone. */
  predicate PhaseMembers(role: Role, vs: seq<Member>, beforeA1: bool) {
    if beforeA1 && role == INGRESS then
      && |vs| == 2
      && ((Sole(vs[0], BootstrapDeny, 100) && Sole(vs[1], FinalAuthority, 0)) ||
          (Sole(vs[1], BootstrapDeny, 100) && Sole(vs[0], FinalAuthority, 0)))
    else |vs| == 1 && Sole(vs[0], FinalAuthority, 100)
  }

  predicate DeploymentsInOrder(ds: seq<Deployment>, beforeA1: bool) {
    && |ds| == ROLES
    && forall i :: 0 <= i < ROLES ==>
         && ds[i].role == i && PhaseMembers(i, ds[i].versions, beforeA1)
         && (ds[i].id.None? ==> !beforeA1 && i == INGRESS)
  }

  function FinalOf(vs: seq<Member>): Option<Member> {
    if vs == [] then None else if vs[0].kind == FinalAuthority then Some(vs[0]) else FinalOf(vs[1..])
  }

  /** Both phases run the version that the inventory names, and differ in nothing but the share of traffic. */
  predicate CrossBound(row: Row, a0: Deployment, a1: Deployment)
    requires a1.versions != []
  {
    var before, after := FinalOf(a0.versions), a1.versions[0];
    && before.Some? && before.value.(percentage := after.percentage) == after && after.percentage == 100
    && before.value.percentage == (if row.role == INGRESS then 0 else 100)
    && (if row.role == INGRESS then a1.id.None? else a0.id == a1.id)
    && BoundTo(after, row)
    && a0.service == row.service && a1.service == row.service
  }

  predicate BoundTo(m: Member, row: Row) {
    m.version == row.version && m.configuration == row.configuration && m.source == row.source
    && m.projection == row.projection
  }

  predicate Parses(d: Document, supplied: Digest, account: Name, commit: Name) {
    && d.account == account && d.commit == commit && d.receiptBindings == RECEIPT_BINDINGS
    && RowsInOrder(d.authorities, account) && (forall i :: 0 <= i < ROLES ==> d.authorities[i].commit == commit)
    && DeploymentsInOrder(d.a0, true) && DeploymentsInOrder(d.a1, false)
    && (forall i :: 0 <= i < ROLES ==> CrossBound(d.authorities[i], d.a0[i], d.a1[i]))
    && d.network.service == d.authorities[INGRESS].service
    && supplied == DigestOf(d)
  }

  // ---- the check against the broker -----------------------------------------------------------

  function ServiceOfRow(row: Row): Service {
    Service(row.binding, row.configuration, row.service, row.identity, row.commit, row.source, row.projection,
            row.version, map[])
  }

  predicate RowMatches(row: Row, broker: Broker) {
    if row.role == INGRESS then
      && broker.configuration == row.configuration && broker.script == row.service && broker.identity == row.identity
      && broker.commit == row.commit && broker.source == row.source && broker.projection == row.projection
      && broker.version == row.version
    else
      row.role in broker.privateServices && broker.privateServices[row.role].(extra := map[]) == ServiceOfRow(row)
  }

  predicate MatchesBroker(d: Document, broker: Broker) {
    && d.network.hostname == broker.core.hostname && d.network.service == broker.script
    && broker.core.endpoint == HttpsOf(broker.core.hostname)
    && forall i :: 0 <= i < |d.authorities| ==> RowMatches(d.authorities[i], broker)
  }

  // ---- normalised payloads --------------------------------------------------------------------

  datatype ShortMember =
    | ShortFinal(percentage: nat, record: Name, recordDigest: Name, etag: Name)
    | Whole(member: Member)

  datatype ShortDeployment = ShortDeployment(role: Role, id: Option<Name>, versions: seq<ShortMember>)

  datatype Bundle = Bundle(core: Core, apps: map<Name, Name>, account: Name, commit: Name, digest: Digest,
                           inventory: seq<Row>, a0: seq<ShortDeployment>, a1: seq<ShortDeployment>,
                           hostname: Name, networkRest: Name, receiptBindings: Name)

  function Shorten(m: Member): ShortMember {
    if m.kind == FinalAuthority then ShortFinal(m.percentage, m.record, m.recordDigest, m.etag) else Whole(m)
  }

  function NormalizeDeployment(d: Deployment): ShortDeployment {
    ShortDeployment(d.role, d.id, seq(|d.versions|, k requires 0 <= k < |d.versions| => Shorten(d.versions[k])))
  }

  function NormalizeDeployments(ds: seq<Deployment>): seq<ShortDeployment> {
    seq(|ds|, i requires 0 <= i < |ds| => NormalizeDeployment(ds[i]))
  }

  /** What the request parser demands of the broker: exactly the private roles, with exactly the known fields. */
  ghost predicate ParsedBroker(broker: Broker) {
    && broker.identity == WorkerIdentity(broker.account, broker.script, broker.version)
    && broker.core.endpoint == HttpsOf(broker.core.hostname)
    && (forall name: Name :: name in broker.privateServices <==> name < ROLES && name != INGRESS)
    && (forall role: Role :: role in broker.privateServices ==> ParsedService(broker, role, broker.privateServices[role]))
  }

  predicate ParsedService(broker: Broker, role: Role, service: Service) {
    && service.binding == BindingOf(role) && service.extra == map[] && service.commit == broker.commit
    && service.identity == WorkerIdentity(broker.account, service.service, service.version)
  }

  /** And of the applications: exactly their roles, each with the binding and the version of its private service. */
  ghost predicate ParsedApps(apps: map<Name, App>, services: map<Name, Service>) {
    && (forall role :: role in apps <==> HasApp(role))
    && forall role: Role :: HasApp(role) && role in apps ==>
         role in services && apps[role].serviceBinding == BindingOf(role) && apps[role].version == services[role].version
  }

  /** A parsed request, and the expectation parsed beside it, that the builder accepts. */
  ghost predicate Buildable(q: Request, account: Name, commit: Name) {
    && ParsedBroker(q.broker) && ParsedApps(q.apps, q.broker.privateServices)
    && Parses(q.document, q.digest, account, commit) && MatchesBroker(q.document, q.broker)
  }

  function Build(q: Request): Bundle {
    var d := q.document;
    Bundle(q.broker.core, map role | role in q.apps :: q.apps[role].kept, d.account, d.commit, q.digest, d.authorities,
           NormalizeDeployments(d.a0), NormalizeDeployments(d.a1), d.network.hostname, d.network.rest, RECEIPT_BINDINGS)
  }

  // ---- reconstruction -------------------------------------------------------------------------

  function Lengthen(m: ShortMember, row: Row): Member {
    match m
    case ShortFinal(percentage, record, recordDigest, etag) =>
      Member(FinalAuthority, row.configuration, percentage, record, recordDigest, etag, row.source, row.projection,
             row.version)
    case Whole(member) => member
  }

  function RebuildDeployment(d: ShortDeployment, row: Row): Deployment {
    Deployment(row.role, d.id, seq(|d.versions|, k requires 0 <= k < |d.versions| => Lengthen(d.versions[k], row)),
               row.service)
  }

  function RebuildDeployments(ds: seq<ShortDeployment>, inventory: seq<Row>): Option<seq<Deployment>> {
    if |ds| != |inventory| || exists i :: 0 <= i < |ds| && ds[i].role != inventory[i].role then None
    else Some(seq(|ds|, i requires 0 <= i < |ds| && |ds| == |inventory| => RebuildDeployment(ds[i], inventory[i])))
  }

  /** One entry for each row but the ingress; of two rows for one role the later would count. */
  function PrivateServices(inventory: seq<Row>): map<Name, Service> {
    if inventory == [] then map[]
    else
      var k := |inventory| - 1;
      var before := PrivateServices(inventory[..k]);
      if inventory[k].role == INGRESS then before else before[inventory[k].role := ServiceOfRow(inventory[k])]
  }

  lemma {:induction false} PrivateServicesAre(inventory: seq<Row>, n: nat)
    requires n <= |inventory| && forall i :: 0 <= i < |inventory| ==> inventory[i].role == i
    ensures forall role: Name :: role in PrivateServices(inventory[..n]) <==> role < n && role != INGRESS
    ensures forall role: Name :: role in PrivateServices(inventory[..n]) ==>
              PrivateServices(inventory[..n])[role] == ServiceOfRow(inventory[role])
  {
    if n > 0 {
      PrivateServicesAre(inventory, n - 1);
      assert inventory[..n][..n - 1] == inventory[..n - 1];
      assert inventory[..n][n - 1] == inventory[n - 1];
    }
  }

  method RebuildPrivateServices(inventory: seq<Row>) returns (services: map<Name, Service>)
    ensures services == PrivateServices(inventory)
  {
    services := map[];
    for i := 0 to |inventory|
      invariant services == PrivateServices(inventory[..i])
    {
      assert inventory[..i + 1][..i] == inventory[..i];
      var row := inventory[i];
      if row.role != INGRESS {
        services := services[row.role := ServiceOfRow(row)];
      }
    }
    assert inventory[..|inventory|] == inventory;
  }

  function RebuildBroker(core: Core, inventory: seq<Row>, ingress: Row, account: Name, commit: Name): Broker {
    Broker(core, account, ingress.configuration, PrivateServices(inventory), ingress.identity, commit, ingress.source,
           ingress.projection, ingress.service, ingress.version)
  }

  function FindRow(inventory: seq<Row>, role: Role): (r: Option<Row>)
    ensures r.None? <==> forall i :: 0 <= i < |inventory| ==> inventory[i].role != role
    ensures r.Some? ==> r.value in inventory && r.value.role == role
  {
    if inventory == [] then None else if inventory[0].role == role then Some(inventory[0]) else FindRow(inventory[1..], role)
  }

  /** The applications that the inventory allows: kept fields with the two dropped ones put back. */
  ghost predicate AppsRebuilt(apps: map<Name, App>, kept: map<Name, Name>, inventory: seq<Row>) {
    && (forall role :: role in apps <==> HasApp(role))
    && forall role: Role :: HasApp(role) ==>
         && role in kept && FindRow(inventory, role).Some?
         && apps[role] == App(kept[role], FindRow(inventory, role).value.binding, FindRow(inventory, role).value.version)
  }

  method RebuildApps(kept: map<Name, Name>, inventory: seq<Row>) returns (apps: Option<map<Name, App>>)
    ensures apps.Some? <==> forall role: Role :: HasApp(role) ==> role in kept && FindRow(inventory, role).Some?
    ensures apps.Some? ==> AppsRebuilt(apps.value, kept, inventory)
  {
    var found: map<Name, App> := map[];
    for i := 0 to |APP_ROLES|
      invariant forall role: Name :: role in found <==> role in APP_ROLES[..i]
      invariant forall role :: role in APP_ROLES[..i] ==>
                  && role in kept && FindRow(inventory, role).Some?
                  && found[role] ==
                       App(kept[role], FindRow(inventory, role).value.binding, FindRow(inventory, role).value.version)
    {
      var role := APP_ROLES[i];
      assert APP_ROLES[..i + 1] == APP_ROLES[..i] + [role];
      var row := FindRow(inventory, role);
      if role !in kept || row.None? {
        return None;
      }
      found := found[role := App(kept[role], row.value.binding, row.value.version)];
    }
    assert APP_ROLES[..|APP_ROLES|] == APP_ROLES;
    return Some(found);
  }

  datatype Authorities = Authorities(broker: Broker, apps: map<Name, App>, document: Document)

  /** The account and the running worker that the reconstruction trusts. */
  datatype Trust = Trust(account: Name, version: Name, identity: Identity)

  predicate Trusted(t: Trust, account: Name, inventory: seq<Row>)
    requires |inventory| == ROLES
  {
    t.account == account && inventory[INGRESS].version == t.version && inventory[INGRESS].identity == t.identity
  }

  /** Nothing is given back unless the rebuilt document has the digest of the header. */
  method Reconstruct(b: Bundle, trust: Trust) returns (r: Option<Authorities>)
    ensures r.Some? ==> Authentic(b, trust, r.value)
    ensures (exists a :: Authentic(b, trust, a)) ==> r.Some?
  {
    if b.account != trust.account || !RowsInOrder(b.inventory, b.account) || !Trusted(trust, b.account, b.inventory) {
      return None;
    }
    var services := RebuildPrivateServices(b.inventory);
    var ingress := b.inventory[INGRESS];
    var broker := Broker(b.core, b.account, ingress.configuration, services, ingress.identity, b.commit, ingress.source,
                         ingress.projection, ingress.service, ingress.version);
    var apps := RebuildApps(b.apps, b.inventory);
    var a0 := RebuildDeployments(b.a0, b.inventory);
    var a1 := RebuildDeployments(b.a1, b.inventory);
    if apps.None? || a0.None? || a1.None? {
      return None;
    }
    var document := Document(b.inventory, b.commit, b.account, a0.value, a1.value,
                             Network(b.hostname, b.networkRest, ingress.service), b.receiptBindings);
    if !Parses(document, b.digest, b.account, b.commit) || !MatchesBroker(document, broker) {
      return None;
    }
    return Some(Authorities(broker, apps.value, document));
  }

  /** What a successful reconstruction gives back. */
  ghost predicate Authentic(b: Bundle, trust: Trust, a: Authorities) {
    && RowsInOrder(b.inventory, b.account) && Trusted(trust, b.account, b.inventory)
    && RebuildDeployments(b.a0, b.inventory) == Some(a.document.a0)
    && RebuildDeployments(b.a1, b.inventory) == Some(a.document.a1)
    && a.document == Document(b.inventory, b.commit, b.account, a.document.a0, a.document.a1,
                              Network(b.hostname, b.networkRest, b.inventory[INGRESS].service), b.receiptBindings)
    && a.broker == RebuildBroker(b.core, b.inventory, b.inventory[INGRESS], b.account, b.commit)
    && AppsRebuilt(a.apps, b.apps, b.inventory)
    && Parses(a.document, b.digest, b.account, b.commit) && MatchesBroker(a.document, a.broker)
  }

  // ---- what is accepted -----------------------------------------------------------------------

  /** The final version of an inventory row, with this share of the traffic. */
  predicate Serves(m: Member, row: Row, percentage: nat) {
    && m.kind == FinalAuthority && m.percentage == percentage && m.version == row.version
    && m.configuration == row.configuration && m.source == row.source && m.projection == row.projection
  }

  /** The second phase is the first one, except that the ingress leaves its denying bootstrap for its final version. */
  predicate Promoted(row: Row, a0: Deployment, a1: Deployment) {
    && a0.role == a1.role == row.role && a0.service == a1.service == row.service && a0.id.Some?
    && |a1.versions| == 1 && Serves(a1.versions[0], row, 100)
    && if row.role == 8 then
         && a1.id.None? && |a0.versions| == 2
         && exists k :: 0 <= k < 2 && WaitsBehind(a0.versions[k], a0.versions[1 - k], a1.versions[0])
       else a1 == a0
  }

  predicate WaitsBehind(waiting: Member, serving: Member, next: Member) {
    waiting == next.(percentage := 0) && serving.kind == BootstrapDeny && serving.percentage == 100
  }

  lemma CrossBoundIsPromoted(row: Row, a0: Deployment, a1: Deployment)
    ensures Promoted(row, a0, a1) <==>
              && a0.role == a1.role == row.role
              && PhaseMembers(a0.role, a0.versions, true) && PhaseMembers(a1.role, a1.versions, false)
              && a0.id.Some? && (a1.id.None? ==> a1.role == INGRESS) && a1.versions != [] && CrossBound(row, a0, a1)
  {
    if |a0.versions| == 2 {
      var first, second := a0.versions[0], a0.versions[1];
      assert FinalOf(a0.versions[1..]) == if second.kind == FinalAuthority then Some(second) else FinalOf(a0.versions[2..]);
      if |a1.versions| == 1 {
        var next := a1.versions[0];
        assert WaitsBehind(a0.versions[0], a0.versions[1 - 0], next) <==> WaitsBehind(first, second, next);
        assert WaitsBehind(a0.versions[1], a0.versions[1 - 1], next) <==> WaitsBehind(second, first, next);
      }
    }
    if |a0.versions| == |a1.versions| == 1 && a0.versions[0] == a1.versions[0] {
      assert a0.versions == a1.versions;
    }
  }

  /**
   * A document parses exactly when it holds fourteen rows in role order, each of its own service and version, and
   * two phases of which the second is the first one promoted.
   */
  lemma ParsesExactly(d: Document, supplied: Digest, account: Name, commit: Name)
    ensures Parses(d, supplied, account, commit) <==>
              && d.account == account && d.commit == commit && d.receiptBindings == RECEIPT_BINDINGS
              && supplied == DigestOf(d)
              && |d.authorities| == |d.a0| == |d.a1| == 14
              && (forall i :: 0 <= i < 14 ==>
                    var row := d.authorities[i];
                    && row.role == i && row.binding == BindingOf(i) && row.commit == commit
                    && row.identity == WorkerIdentity(account, row.service, row.version))
              && (forall i, j :: 0 <= i < j < 14 ==>
                    && d.authorities[i].version != d.authorities[j].version
                    && d.authorities[i].service != d.authorities[j].service)
              && (forall i :: 0 <= i < 14 ==> Promoted(d.authorities[i], d.a0[i], d.a1[i]))
              && d.network.service == d.authorities[8].service
  {
    hide CrossBound, Promoted;
    if |d.authorities| == |d.a0| == |d.a1| == 14 {
      forall i | 0 <= i < 14
        ensures Promoted(d.authorities[i], d.a0[i], d.a1[i]) <==>
                  && d.a0[i].role == d.a1[i].role == d.authorities[i].role
                  && PhaseMembers(d.a0[i].role, d.a0[i].versions, true) && PhaseMembers(d.a1[i].role, d.a1[i].versions, false)
                  && d.a0[i].id.Some? && (d.a1[i].id.None? ==> d.a1[i].role == INGRESS)
                  && d.a1[i].versions != [] && CrossBound(d.authorities[i], d.a0[i], d.a1[i])
      {
        CrossBoundIsPromoted(d.authorities[i], d.a0[i], d.a1[i]);
      }
      if Parses(d, supplied, account, commit) {
        forall i | 0 <= i < 14 ensures Promoted(d.authorities[i], d.a0[i], d.a1[i]) {
          assert RowOk(d.authorities[i], i, account);
        }
      }
    }
  }

  /** The document that the bundle stands for. */
  function RebuiltDocument(b: Bundle): Option<Document>
    requires |b.inventory| == ROLES
  {
    match (RebuildDeployments(b.a0, b.inventory), RebuildDeployments(b.a1, b.inventory))
    case (Some(a0), Some(a1)) =>
      Some(Document(b.inventory, b.commit, b.account, a0, a1,
                    Network(b.hostname, b.networkRest, b.inventory[INGRESS].service), b.receiptBindings))
    case _ => None
  }

  /** Of the broker check only the two names of the host are left once the broker is rebuilt from the inventory. */
  lemma RebuiltMatchesWhen(b: Bundle, d: Document)
    requires RowsInOrder(b.inventory, b.account) && RebuiltDocument(b) == Some(d)
    requires forall i :: 0 <= i < ROLES ==> b.inventory[i].commit == b.commit
    ensures MatchesBroker(d, RebuildBroker(b.core, b.inventory, b.inventory[INGRESS], b.account, b.commit)) <==>
              b.hostname == b.core.hostname && b.core.endpoint == HttpsOf(b.hostname)
  {
    assert b.inventory[..ROLES] == b.inventory;
    assert forall i :: 0 <= i < ROLES ==> RowOk(b.inventory[i], i, b.account);
    PrivateServicesAre(b.inventory, ROLES);
    var broker := RebuildBroker(b.core, b.inventory, b.inventory[INGRESS], b.account, b.commit);
    forall i | 0 <= i < |d.authorities| ensures RowMatches(d.authorities[i], broker) {
    }
  }

  /**
   * A bundle is accepted exactly when its account and ingress are the trusted ones, every application has its
   * kept fields, host and endpoint name one host, and the document put together again is the one whose digest
   * the header carries, and parses.
   */
  lemma AcceptedExactly(b: Bundle, trust: Trust)
    ensures (exists a :: Authentic(b, trust, a)) <==>
              && RowsInOrder(b.inventory, b.account)
              && trust == Trust(b.account, b.inventory[8].version, b.inventory[8].identity)
              && (forall role :: role in [0, 1, 2, 4, 5, 6, 9, 10] ==> role in b.apps)
              && b.hostname == b.core.hostname && b.core.endpoint == HttpsOf(b.hostname)
              && RebuiltDocument(b).Some? && Parses(RebuiltDocument(b).value, b.digest, b.account, b.commit)
  {
    hide Parses, MatchesBroker, RebuildDeployments, AppsRebuilt, PrivateServices, RowsInOrder, FindRow;
    if a :| Authentic(b, trust, a) {
      AppsNeedKept(a.apps, b.apps, b.inventory);
      ParsedCommits(a.document, b.digest, b.account, b.commit);
      RebuiltMatchesWhen(b, a.document);
    }
    if RowsInOrder(b.inventory, b.account) && (forall role :: role in [0, 1, 2, 4, 5, 6, 9, 10] ==> role in b.apps) {
      RowsNumber(b.inventory, b.account);
      var apps := KeptIsEnough(b.apps, b.inventory, b.account);
      if RebuiltDocument(b).Some? && Parses(RebuiltDocument(b).value, b.digest, b.account, b.commit) {
        var d := RebuiltDocument(b).value;
        ParsedCommits(d, b.digest, b.account, b.commit);
        RebuiltMatchesWhen(b, d);
        var broker := RebuildBroker(b.core, b.inventory, b.inventory[INGRESS], b.account, b.commit);
        if MatchesBroker(d, broker) && trust == Trust(b.account, b.inventory[8].version, b.inventory[8].identity) {
          assert Authentic(b, trust, Authorities(broker, apps, d));
        }
      }
    }
  }

  lemma RowsNumber(rows: seq<Row>, account: Name)
    requires RowsInOrder(rows, account)
    ensures |rows| == ROLES
  {
  }

  lemma ParsedCommits(d: Document, supplied: Digest, account: Name, commit: Name)
    requires Parses(d, supplied, account, commit)
    ensures |d.authorities| == ROLES && forall i :: 0 <= i < ROLES ==> d.authorities[i].commit == commit
  {
  }

  lemma AppsNeedKept(apps: map<Name, App>, kept: map<Name, Name>, inventory: seq<Row>)
    requires AppsRebuilt(apps, kept, inventory)
    ensures forall role :: role in [0, 1, 2, 4, 5, 6, 9, 10] ==> role in kept
  {
    forall role | role in [0, 1, 2, 4, 5, 6, 9, 10] ensures role in kept {
      assert HasApp(role);
    }
  }

  lemma KeptIsEnough(kept: map<Name, Name>, inventory: seq<Row>, account: Name) returns (apps: map<Name, App>)
    requires RowsInOrder(inventory, account) && forall role :: role in [0, 1, 2, 4, 5, 6, 9, 10] ==> role in kept
    ensures AppsRebuilt(apps, kept, inventory)
  {
    forall role: Role ensures FindRow(inventory, role) == Some(inventory[role]) {
      FoundInPlace(inventory, account, role);
    }
    assert forall role: Name :: HasApp(role) ==> role in kept && role < ROLES;
    apps := map role | role in kept && HasApp(role) && role < |inventory| ::
      App(kept[role], inventory[role].binding, inventory[role].version);
  }

  // ---- nothing is lost ------------------------------------------------------------------------

  lemma MembersBound(d: Deployment, row: Row, beforeA1: bool)
    requires PhaseMembers(d.role, d.versions, beforeA1)
    requires FinalOf(d.versions).Some? && BoundTo(FinalOf(d.versions).value, row)
    ensures forall k :: 0 <= k < |d.versions| && d.versions[k].kind == FinalAuthority ==> BoundTo(d.versions[k], row)
  {
    assert |d.versions| == 2 ==>
        FinalOf(d.versions[1..]) ==
          if d.versions[1].kind == FinalAuthority then Some(d.versions[1]) else FinalOf(d.versions[2..]);
  }

  /** A deployment comes back whole when its final versions are the ones in the inventory. */
  lemma DeploymentComesBack(d: Deployment, row: Row)
    requires d.role == row.role && d.service == row.service
    requires forall k :: 0 <= k < |d.versions| && d.versions[k].kind == FinalAuthority ==> BoundTo(d.versions[k], row)
    ensures RebuildDeployment(NormalizeDeployment(d), row) == d
  {
    var versions := RebuildDeployment(NormalizeDeployment(d), row).versions;
    forall k | 0 <= k < |d.versions| ensures versions[k] == d.versions[k] {
      assert versions[k] == Lengthen(Shorten(d.versions[k]), row);
    }
    assert versions == d.versions;
  }

  lemma DeploymentsComeBack(d: Document, supplied: Digest, account: Name, commit: Name)
    requires Parses(d, supplied, account, commit)
    ensures RebuildDeployments(NormalizeDeployments(d.a0), d.authorities) == Some(d.a0)
    ensures RebuildDeployments(NormalizeDeployments(d.a1), d.authorities) == Some(d.a1)
  {
    forall i | 0 <= i < ROLES
      ensures RebuildDeployment(NormalizeDeployment(d.a0[i]), d.authorities[i]) == d.a0[i]
      ensures RebuildDeployment(NormalizeDeployment(d.a1[i]), d.authorities[i]) == d.a1[i]
    {
      var row := d.authorities[i];
      assert CrossBound(row, d.a0[i], d.a1[i]);
      MembersBound(d.a0[i], row, true);
      MembersBound(d.a1[i], row, false);
      DeploymentComesBack(d.a0[i], row);
      DeploymentComesBack(d.a1[i], row);
    }
    assert RebuildDeployments(NormalizeDeployments(d.a0), d.authorities).value == d.a0;
    assert RebuildDeployments(NormalizeDeployments(d.a1), d.authorities).value == d.a1;
  }

  /** The broker says nothing about its private services beyond the inventory, and names the account of the document. */
  ghost predicate PlainBroker(broker: Broker, account: Name) {
    && broker.account == account
    && (forall name: Name :: name in broker.privateServices ==> name < ROLES && name != INGRESS)
    && (forall name: Name :: name in broker.privateServices ==> broker.privateServices[name].extra == map[])
  }

  lemma BrokerComesBack(d: Document, supplied: Digest, account: Name, commit: Name, broker: Broker)
    requires Parses(d, supplied, account, commit) && MatchesBroker(d, broker)
    ensures RebuildBroker(broker.core, d.authorities, d.authorities[INGRESS], account, commit) == broker <==>
              PlainBroker(broker, account)
  {
    var rebuilt := RebuildBroker(broker.core, d.authorities, d.authorities[INGRESS], account, commit);
    assert d.authorities[..ROLES] == d.authorities;
    PrivateServicesAre(d.authorities, ROLES);
    assert RowMatches(d.authorities[INGRESS], broker);
    forall role: Name | role < ROLES && role != INGRESS
      ensures role in broker.privateServices
      ensures broker.privateServices[role].(extra := map[]) == rebuilt.privateServices[role]
    {
      assert RowMatches(d.authorities[role], broker);
    }
    if PlainBroker(broker, account) {
      assert rebuilt.privateServices == broker.privateServices;
    }
  }

  /** The applications name the binding and the version that the inventory has for their role. */
  ghost predicate BoundApps(apps: map<Name, App>, inventory: seq<Row>)
    requires |inventory| == ROLES
  {
    forall role: Role :: HasApp(role) && role in apps ==>
      apps[role].serviceBinding == inventory[role].binding && apps[role].version == inventory[role].version
  }

  lemma FoundInPlace(inventory: seq<Row>, account: Name, role: Role)
    requires RowsInOrder(inventory, account)
    ensures FindRow(inventory, role) == Some(inventory[role])
  {
    assert forall i :: 0 <= i < ROLES ==> RowOk(inventory[i], i, account) && inventory[i].role == i;
  }

  lemma AppRebuilt(apps: map<Name, App>, kept: map<Name, Name>, inventory: seq<Row>, account: Name, role: Role)
    requires RowsInOrder(inventory, account) && AppsRebuilt(apps, kept, inventory) && HasApp(role)
    ensures role in kept && apps[role] == App(kept[role], inventory[role].binding, inventory[role].version)
  {
    FoundInPlace(inventory, account, role);
  }

  lemma AppRolesAreRoles()
    ensures forall role: Name :: HasApp(role) ==> role < ROLES
  {
  }

  lemma PutBackAgrees(apps: map<Name, App>, rebuilt: map<Name, App>, inventory: seq<Row>)
    requires rebuilt.Keys == apps.Keys && forall role :: role in apps ==> role < |inventory|
    requires forall role :: role in apps ==>
               rebuilt[role] == App(apps[role].kept, inventory[role].binding, inventory[role].version)
    ensures rebuilt == apps <==> forall role :: role in apps ==>
              apps[role].serviceBinding == inventory[role].binding && apps[role].version == inventory[role].version
  {
    if forall role :: role in apps ==>
         apps[role].serviceBinding == inventory[role].binding && apps[role].version == inventory[role].version
    {
      assert forall role :: role in apps ==> rebuilt[role] == apps[role];
    }
  }

  lemma AppsComeBack(apps: map<Name, App>, rebuilt: map<Name, App>, inventory: seq<Row>, account: Name)
    requires RowsInOrder(inventory, account) && (forall role :: role in apps <==> HasApp(role))
    requires AppsRebuilt(rebuilt, map role | role in apps :: apps[role].kept, inventory)
    ensures rebuilt == apps <==> BoundApps(apps, inventory)
  {
    assert |inventory| == ROLES;
    hide RowsInOrder, FindRow, HasApp;
    assert forall role: Name :: HasApp(role) ==> role < ROLES by {
      AppRolesAreRoles();
    }
    var kept := map role | role in apps :: apps[role].kept;
    assert rebuilt.Keys == apps.Keys;
    forall role | role in apps
      ensures role < |inventory| && rebuilt[role] == App(apps[role].kept, inventory[role].binding, inventory[role].version)
    {
      AppRebuilt(rebuilt, kept, inventory, account, role);
    }
    PutBackAgrees(apps, rebuilt, inventory);
  }

  /** The rebuilt broker passes the same check as the original one. */
  lemma RebuiltMatches(d: Document, supplied: Digest, account: Name, commit: Name, broker: Broker)
    requires Parses(d, supplied, account, commit) && MatchesBroker(d, broker)
    ensures MatchesBroker(d, RebuildBroker(broker.core, d.authorities, d.authorities[INGRESS], account, commit))
  {
    assert d.authorities[..ROLES] == d.authorities;
    PrivateServicesAre(d.authorities, ROLES);
    assert RowMatches(d.authorities[INGRESS], broker);
  }

  /** What the parser demands is what makes the dropped fields derivable. */
  lemma ParsedIsPlain(q: Request, account: Name, commit: Name)
    requires Buildable(q, account, commit)
    ensures PlainBroker(q.broker, account) && BoundApps(q.apps, q.document.authorities)
  {
    var d := q.document;
    assert RowMatches(d.authorities[INGRESS], q.broker) && RowOk(d.authorities[INGRESS], INGRESS, account);
    forall name | name in q.broker.privateServices ensures q.broker.privateServices[name].extra == map[] {
      assert ParsedService(q.broker, name, q.broker.privateServices[name]);
    }
    forall role: Role | HasApp(role) && role in q.apps
      ensures q.apps[role].serviceBinding == d.authorities[role].binding
      ensures q.apps[role].version == d.authorities[role].version
    {
      assert RowOk(d.authorities[role], role, account) && RowMatches(d.authorities[role], q.broker);
    }
  }

  /** Reconstruction undoes normalisation: document, broker and applications all come back as they were. */
  lemma RoundTrip(q: Request, account: Name, commit: Name, trust: Trust, a: Authorities)
    requires Buildable(q, account, commit) && Authentic(Build(q), trust, a)
    ensures a.document == q.document && a.broker == q.broker && a.apps == q.apps
  {
    hide ParsedBroker, ParsedApps;
    ParsedIsPlain(q, account, commit);
    DeploymentsComeBack(q.document, q.digest, account, commit);
    BrokerComesBack(q.document, q.digest, account, commit, q.broker);
    AppRolesOnly(q, account, commit);
    AppsComeBack(q.apps, a.apps, q.document.authorities, account);
  }

  lemma AppRolesOnly(q: Request, account: Name, commit: Name)
    requires Buildable(q, account, commit)
    ensures forall role :: role in q.apps <==> HasApp(role)
  {
  }

  lemma AppsCanBeRebuilt(apps: map<Name, App>, kept: map<Name, Name>, inventory: seq<Row>, account: Name)
    returns (rebuilt: map<Name, App>)
    requires RowsInOrder(inventory, account) && (forall role :: role in apps <==> HasApp(role)) && kept.Keys == apps.Keys
    ensures AppsRebuilt(rebuilt, kept, inventory)
  {
    forall role: Role ensures FindRow(inventory, role) == Some(inventory[role]) {
      FoundInPlace(inventory, account, role);
    }
    rebuilt := map role | role in kept :: App(kept[role], inventory[role].binding, inventory[role].version);
  }

  /** Whatever the builder accepts is reconstructed exactly when the trusted worker is the ingress of the inventory. */
  lemma BuiltIsAccepted(q: Request, account: Name, commit: Name, trust: Trust)
    requires Buildable(q, account, commit)
    ensures (exists a :: Authentic(Build(q), trust, a)) <==> Trusted(trust, account, q.document.authorities)
  {
    hide CrossBound, DeploymentsInOrder, RowMatches, PhaseMembers, RebuildDeployments, NormalizeDeployments, AppsRebuilt,
         PrivateServices;
    var d, b := q.document, Build(q);
    DeploymentsComeBack(d, q.digest, account, commit);
    RebuiltMatches(d, q.digest, account, commit, q.broker);
    var apps := AppsCanBeRebuilt(q.apps, b.apps, d.authorities, account);
    var a := Authorities(RebuildBroker(b.core, d.authorities, d.authorities[INGRESS], account, commit), apps, d);
    if Trusted(trust, account, d.authorities) {
      assert Authentic(b, trust, a);
    }
  }

  /** Two accepted bundles with one header digest agree on every authority; only copied fields can differ. */
  lemma DigestFixesAuthorities(b: Bundle, c: Bundle, trust: Trust, x: Authorities, y: Authorities)
    requires Authentic(b, trust, x) && Authentic(c, trust, y) && b.digest == c.digest
    ensures x.document == y.document
    ensures b.core == c.core ==> x.broker == y.broker
    ensures b.apps == c.apps ==> x.apps == y.apps
  {
  }
}
