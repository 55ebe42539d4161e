/**
 The tables of presences, bindings and routes, and the triggers and foreign keys that guard every
 insert, update and delete on them.

 A table is a map from its primary key to the remaining columns that the guards read. One statement
 writes one row; foreign keys are enforced.
 */
module Routes {
  import opened Common

  type Id = string

  datatype Presence = Presence(platform: string, account: string)
  datatype Binding = Binding(owner: Id, platform: string, account: string)
  datatype Route = Route(binding: Id, presence: Id)

  // A person route is keyed by its person, a space route by its space, an ingest route by its binding.
  // cited are the presences that rows of all other tables point to: automations, receipts, messages,
  // background targets, outboxes and turns.
  datatype Tables = Tables(
    presences: map<Id, Presence>,
    identityBindings: map<Id, Binding>,
    spaceBindings: map<Id, Binding>,
    personRoutes: map<Id, Route>,
    ingestRoutes: map<Id, Id>,
    spaceRoutes: map<Id, Route>,
    cited: set<Id>)

  /* ---- Statements ---- */

  // An update names the columns it sets; the others keep their value.
  datatype Change<Row, Columns> =
    | Insert(id: Id, row: Row)
    | Update(id: Id, newId: Option<Id>, columns: Columns)
    | Delete(id: Id)

  datatype PresenceColumns = PresenceColumns(platform: Option<string>, account: Option<string>)
  datatype BindingColumns = BindingColumns(owner: Option<Id>, platform: Option<string>, account: Option<string>)
  datatype RouteColumns = RouteColumns(binding: Option<Id>, presence: Option<Id>)
  datatype IngestColumns = IngestColumns(presence: Option<Id>)

  datatype Statement =
    | OnPresence(presence: Change<Presence, PresenceColumns>)
    | OnIdentityBinding(binding: Change<Binding, BindingColumns>)
    | OnSpaceBinding(binding: Change<Binding, BindingColumns>)
    | OnPersonRoute(route: Change<Route, RouteColumns>)
    | OnSpaceRoute(route: Change<Route, RouteColumns>)
    | OnIngestRoute(ingest: Change<Id, IngestColumns>)
    | OnOtherTables(cited: set<Id>)

  function Given<T>(o: Option<T>, otherwise: T): T {
    if o.Some? then o.value else otherwise
  }

  function SetPresence(r: Presence, c: PresenceColumns): Presence {
    Presence(Given(c.platform, r.platform), Given(c.account, r.account))
  }

  function SetBinding(r: Binding, c: BindingColumns): Binding {
    Binding(Given(c.owner, r.owner), Given(c.platform, r.platform), Given(c.account, r.account))
  }

  function SetRoute(r: Route, c: RouteColumns): Route {
    Route(Given(c.binding, r.binding), Given(c.presence, r.presence))
  }

  function SetIngest(r: Id, c: IngestColumns): Id {
    Given(c.presence, r)
  }

  // A statement that finds no row does nothing, and nothing guards it.
  predicate Idle<Row, Columns>(m: map<Id, Row>, c: Change<Row, Columns>) {
    !c.Insert? && c.id !in m
  }

  function NewKey<Row, Columns>(c: Change<Row, Columns>): Id {
    if c.Update? then Given(c.newId, c.id) else c.id
  }

  function NewRow<Row, Columns>(m: map<Id, Row>, c: Change<Row, Columns>, set_: (Row, Columns) -> Row): Row
    requires !c.Delete? && !Idle(m, c)
  {
    if c.Insert? then c.row else set_(m[c.id], c.columns)
  }

  function Changed<Row, Columns>(m: map<Id, Row>, c: Change<Row, Columns>, set_: (Row, Columns) -> Row): map<Id, Row> {
    if Idle(m, c) then m
    else if c.Delete? then m - {c.id}
    else (m - {c.id})[NewKey(c) := NewRow(m, c, set_)]
  }

  predicate KeyFree<Row, Columns>(m: map<Id, Row>, c: Change<Row, Columns>) {
    match c
    case Insert(id, _) => id !in m
    case Update(id, _, _) => NewKey(c) == id || NewKey(c) !in m
    case Delete(_) => true
  }

  // The old key is gone after the statement.
  predicate Loses<Row, Columns>(c: Change<Row, Columns>) {
    c.Delete? || (c.Update? && NewKey(c) != c.id)
  }

  function Apply(d: Tables, s: Statement): Tables {
    match s
    case OnPresence(c) => d.(presences := Changed(d.presences, c, SetPresence))
    case OnIdentityBinding(c) => d.(identityBindings := Changed(d.identityBindings, c, SetBinding))
    case OnSpaceBinding(c) => d.(spaceBindings := Changed(d.spaceBindings, c, SetBinding))
    case OnPersonRoute(c) => d.(personRoutes := Changed(d.personRoutes, c, SetRoute))
    case OnSpaceRoute(c) => d.(spaceRoutes := Changed(d.spaceRoutes, c, SetRoute))
    case OnIngestRoute(c) => d.(ingestRoutes := Changed(d.ingestRoutes, c, SetIngest))
    case OnOtherTables(cited) => d.(cited := cited)
  }

  /* ---- Triggers ---- */

  predicate SomeRouteMisfits(routes: map<Id, Route>, bindings: map<Id, Binding>, presence: Id, platform: string) {
    exists o | o in routes ::
      routes[o].presence == presence && routes[o].binding in bindings
      && bindings[routes[o].binding].platform != platform
  }

  // Before an update that sets the platform of a presence.
  predicate PresenceUpdateAborts(d: Tables, presence: Id, platform: string) {
    || SomeRouteMisfits(d.personRoutes, d.identityBindings, presence, platform)
    || (exists b | b in d.ingestRoutes ::
          d.ingestRoutes[b] == presence && b in d.spaceBindings && d.spaceBindings[b].platform != platform)
    || SomeRouteMisfits(d.spaceRoutes, d.spaceBindings, presence, platform)
  }

  predicate SomeRouteLosesBinding(routes: map<Id, Route>, presences: map<Id, Presence>, id: Id, binding: Binding) {
    exists o | o in routes ::
      routes[o].binding == id && routes[o].presence in presences
      && (o != binding.owner || binding.platform != presences[routes[o].presence].platform)
  }

  // Before an update that sets the person or the platform of an identity binding.
  predicate IdentityUpdateAborts(d: Tables, id: Id, binding: Binding) {
    SomeRouteLosesBinding(d.personRoutes, d.presences, id, binding)
  }

  // Before an update that sets the space or the platform of a space binding.
  predicate SpaceUpdateAborts(d: Tables, id: Id, binding: Binding) {
    || (id in d.ingestRoutes && d.ingestRoutes[id] in d.presences
        && binding.platform != d.presences[d.ingestRoutes[id]].platform)
    || SomeRouteLosesBinding(d.spaceRoutes, d.presences, id, binding)
  }

  // Before an insert or update of a person or space route.
  predicate RouteFits(bindings: map<Id, Binding>, presences: map<Id, Presence>, owner: Id, r: Route) {
    && r.binding in bindings && r.presence in presences
    && bindings[r.binding].owner == owner
    && bindings[r.binding].platform == presences[r.presence].platform
  }

  // Before an insert or update of an ingest route.
  predicate IngestFits(bindings: map<Id, Binding>, presences: map<Id, Presence>, binding: Id, presence: Id) {
    binding in bindings && presence in presences && bindings[binding].platform == presences[presence].platform
  }

  /* ---- Foreign keys and unique accounts ---- */

  predicate PresenceUsed(d: Tables, id: Id) {
    || id in d.cited
    || (exists o | o in d.personRoutes :: d.personRoutes[o].presence == id)
    || (exists b | b in d.ingestRoutes :: d.ingestRoutes[b] == id)
    || (exists o | o in d.spaceRoutes :: d.spaceRoutes[o].presence == id)
  }

  predicate IdentityUsed(d: Tables, id: Id) {
    exists o | o in d.personRoutes :: d.personRoutes[o].binding == id
  }

  predicate SpaceUsed(d: Tables, id: Id) {
    id in d.ingestRoutes || exists o | o in d.spaceRoutes :: d.spaceRoutes[o].binding == id
  }

  predicate PresenceAccountFree(m: map<Id, Presence>, except: Id, r: Presence) {
    forall k :: k in m && k != except ==> !(m[k].platform == r.platform && m[k].account == r.account)
  }

  predicate BindingAccountFree(m: map<Id, Binding>, except: Id, r: Binding) {
    forall k :: k in m && k != except ==> !(m[k].platform == r.platform && m[k].account == r.account)
  }

  /* ---- Acceptance ---- */

  predicate AcceptsPresence(d: Tables, c: Change<Presence, PresenceColumns>) {
    || Idle(d.presences, c)
    || (&& (c.Update? && c.columns.platform.Some? ==> !PresenceUpdateAborts(d, NewKey(c), c.columns.platform.value))
        && KeyFree(d.presences, c)
        && (!c.Delete? ==> PresenceAccountFree(d.presences, c.id, NewRow(d.presences, c, SetPresence)))
        && (Loses(c) ==> !PresenceUsed(d, c.id)))
  }

  predicate SetsGuarded(c: Change<Binding, BindingColumns>) {
    c.Update? && (c.columns.owner.Some? || c.columns.platform.Some?)
  }

  predicate AcceptsIdentityBinding(d: Tables, c: Change<Binding, BindingColumns>) {
    || Idle(d.identityBindings, c)
    || (&& (SetsGuarded(c) ==> !IdentityUpdateAborts(d, NewKey(c), NewRow(d.identityBindings, c, SetBinding)))
        && KeyFree(d.identityBindings, c)
        && (!c.Delete? ==> BindingAccountFree(d.identityBindings, c.id, NewRow(d.identityBindings, c, SetBinding)))
        && (Loses(c) ==> !IdentityUsed(d, c.id)))
  }

  predicate AcceptsSpaceBinding(d: Tables, c: Change<Binding, BindingColumns>) {
    || Idle(d.spaceBindings, c)
    || (&& (SetsGuarded(c) ==> !SpaceUpdateAborts(d, NewKey(c), NewRow(d.spaceBindings, c, SetBinding)))
        && KeyFree(d.spaceBindings, c)
        && (!c.Delete? ==> BindingAccountFree(d.spaceBindings, c.id, NewRow(d.spaceBindings, c, SetBinding)))
        && (Loses(c) ==> !SpaceUsed(d, c.id)))
  }

  predicate AcceptsRoute(routes: map<Id, Route>, bindings: map<Id, Binding>, presences: map<Id, Presence>,
                         c: Change<Route, RouteColumns>) {
    || Idle(routes, c)
    || (&& (!c.Delete? ==> RouteFits(bindings, presences, NewKey(c), NewRow(routes, c, SetRoute)))
        && KeyFree(routes, c))
  }

  predicate AcceptsIngestRoute(d: Tables, c: Change<Id, IngestColumns>) {
    || Idle(d.ingestRoutes, c)
    || (&& (!c.Delete? ==> IngestFits(d.spaceBindings, d.presences, NewKey(c), NewRow(d.ingestRoutes, c, SetIngest)))
        && KeyFree(d.ingestRoutes, c))
  }

  predicate Accepts(d: Tables, s: Statement) {
    match s
    case OnPresence(c) => AcceptsPresence(d, c)
    case OnIdentityBinding(c) => AcceptsIdentityBinding(d, c)
    case OnSpaceBinding(c) => AcceptsSpaceBinding(d, c)
    case OnPersonRoute(c) => AcceptsRoute(d.personRoutes, d.identityBindings, d.presences, c)
    case OnSpaceRoute(c) => AcceptsRoute(d.spaceRoutes, d.spaceBindings, d.presences, c)
    case OnIngestRoute(c) => AcceptsIngestRoute(d, c)
    case OnOtherTables(cited) => cited <= d.presences.Keys
  }

  /* ---- Consistency of the whole database ---- */

  predicate AllRoutesFit(routes: map<Id, Route>, bindings: map<Id, Binding>, presences: map<Id, Presence>) {
    forall o :: o in routes ==> RouteFits(bindings, presences, o, routes[o])
  }

  predicate AllIngestFit(routes: map<Id, Id>, bindings: map<Id, Binding>, presences: map<Id, Presence>) {
    forall b :: b in routes ==> IngestFits(bindings, presences, b, routes[b])
  }

  predicate PresencesUnique(m: map<Id, Presence>) {
    forall j, k :: j in m && k in m && m[j] == m[k] ==> j == k
  }

  predicate BindingsUnique(m: map<Id, Binding>) {
    forall j, k :: j in m && k in m && m[j].platform == m[k].platform && m[j].account == m[k].account ==> j == k
  }

  /** Every route points to a binding owned by its key, on the platform of its presence, and nothing dangles. */
  predicate Consistent(d: Tables) {
    && AllRoutesFit(d.personRoutes, d.identityBindings, d.presences)
    && AllRoutesFit(d.spaceRoutes, d.spaceBindings, d.presences)
    && AllIngestFit(d.ingestRoutes, d.spaceBindings, d.presences)
    && PresencesUnique(d.presences)
    && BindingsUnique(d.identityBindings)
    && BindingsUnique(d.spaceBindings)
    && d.cited <= d.presences.Keys
  }

  // The primary key of the written table is respected.
  predicate RespectsKey(d: Tables, s: Statement) {
    match s
    case OnPresence(c) => Idle(d.presences, c) || KeyFree(d.presences, c)
    case OnIdentityBinding(c) => Idle(d.identityBindings, c) || KeyFree(d.identityBindings, c)
    case OnSpaceBinding(c) => Idle(d.spaceBindings, c) || KeyFree(d.spaceBindings, c)
    case OnPersonRoute(c) => Idle(d.personRoutes, c) || KeyFree(d.personRoutes, c)
    case OnSpaceRoute(c) => Idle(d.spaceRoutes, c) || KeyFree(d.spaceRoutes, c)
    case OnIngestRoute(c) => Idle(d.ingestRoutes, c) || KeyFree(d.ingestRoutes, c)
    case OnOtherTables(_) => true
  }

  /* ---- The local guards are exactly global consistency ---- */

  // After a statement a row is the written one, or an old one under another key.
  lemma ChangedAt<Row, Columns>(m: map<Id, Row>, c: Change<Row, Columns>, set_: (Row, Columns) -> Row, k: Id)
    requires !Idle(m, c)
    ensures var after := Changed(m, c, set_);
      && (k in after <==> (!c.Delete? && k == NewKey(c)) || (k in m && k != c.id))
      && (k in after ==> after[k] == if !c.Delete? && k == NewKey(c) then NewRow(m, c, set_) else m[k])
  {}

  lemma RoutesUnderPresence(routes: map<Id, Route>, bindings: map<Id, Binding>, m: map<Id, Presence>,
                            c: Change<Presence, PresenceColumns>)
    requires AllRoutesFit(routes, bindings, m) && !Idle(m, c) && KeyFree(m, c)
    ensures AllRoutesFit(routes, bindings, Changed(m, c, SetPresence)) <==>
            && (c.Update? && c.columns.platform.Some? ==>
                  !SomeRouteMisfits(routes, bindings, NewKey(c), c.columns.platform.value))
            && (Loses(c) ==> forall o :: o in routes ==> routes[o].presence != c.id)
  {
    var after := Changed(m, c, SetPresence);
    hide Changed;
    forall o | o in routes
      ensures RouteFits(bindings, m, o, routes[o])
      ensures RouteFits(bindings, after, o, routes[o]) <==>
              && (Loses(c) ==> routes[o].presence != c.id)
              && (c.Update? && c.columns.platform.Some? && routes[o].presence == NewKey(c)
                  ==> bindings[routes[o].binding].platform == c.columns.platform.value)
    {
      ChangedAt(m, c, SetPresence, routes[o].presence);
    }
    hide RouteFits;
    assert forall o :: o in routes ==> routes[o].binding in bindings by { BindingsExist(routes, bindings, m); }
  }

  lemma BindingsExist(routes: map<Id, Route>, bindings: map<Id, Binding>, presences: map<Id, Presence>)
    requires AllRoutesFit(routes, bindings, presences)
    ensures forall o :: o in routes ==> routes[o].binding in bindings && routes[o].presence in presences
  {
    assert forall o :: o in routes ==> RouteFits(bindings, presences, o, routes[o]);
  }

  lemma IngestUnderPresence(routes: map<Id, Id>, bindings: map<Id, Binding>, m: map<Id, Presence>,
                            c: Change<Presence, PresenceColumns>)
    requires AllIngestFit(routes, bindings, m) && !Idle(m, c) && KeyFree(m, c)
    ensures AllIngestFit(routes, bindings, Changed(m, c, SetPresence)) <==>
            && (c.Update? && c.columns.platform.Some? ==> forall b :: b in routes && routes[b] == NewKey(c) ==>
                  b in bindings && bindings[b].platform == c.columns.platform.value)
            && (Loses(c) ==> forall b :: b in routes ==> routes[b] != c.id)
  {
    var after := Changed(m, c, SetPresence);
    hide Changed;
    forall b | b in routes
      ensures IngestFits(bindings, m, b, routes[b])
      ensures IngestFits(bindings, after, b, routes[b]) <==>
              && (Loses(c) ==> routes[b] != c.id)
              && (c.Update? && c.columns.platform.Some? && routes[b] == NewKey(c)
                  ==> bindings[b].platform == c.columns.platform.value)
    {
      ChangedAt(m, c, SetPresence, routes[b]);
    }
    assert forall b :: b in routes ==> b in bindings;
    hide IngestFits;
  }

  lemma RoutesUnderBinding(routes: map<Id, Route>, m: map<Id, Binding>, presences: map<Id, Presence>,
                           c: Change<Binding, BindingColumns>)
    requires AllRoutesFit(routes, m, presences) && !Idle(m, c) && KeyFree(m, c)
    ensures AllRoutesFit(routes, Changed(m, c, SetBinding), presences) <==>
            && (SetsGuarded(c) ==> !SomeRouteLosesBinding(routes, presences, NewKey(c), NewRow(m, c, SetBinding)))
            && (Loses(c) ==> forall o :: o in routes ==> routes[o].binding != c.id)
  {
    var after := Changed(m, c, SetBinding);
    hide Changed;
    BindingsExist(routes, m, presences);
    forall o | o in routes
      ensures RouteFits(after, presences, o, routes[o]) <==>
              && (Loses(c) ==> routes[o].binding != c.id)
              && (SetsGuarded(c) && routes[o].binding == NewKey(c)
                  ==> var row := NewRow(m, c, SetBinding);
                      o == row.owner && row.platform == presences[routes[o].presence].platform)
    {
      assert RouteFits(m, presences, o, routes[o]);
      ChangedAt(m, c, SetBinding, routes[o].binding);
    }
    hide RouteFits, NewRow;
  }

  lemma IngestUnderBinding(routes: map<Id, Id>, m: map<Id, Binding>, presences: map<Id, Presence>,
                           c: Change<Binding, BindingColumns>)
    requires AllIngestFit(routes, m, presences) && !Idle(m, c) && KeyFree(m, c)
    ensures AllIngestFit(routes, Changed(m, c, SetBinding), presences) <==>
            && (SetsGuarded(c) && NewKey(c) in routes ==>
                  routes[NewKey(c)] in presences
                  && NewRow(m, c, SetBinding).platform == presences[routes[NewKey(c)]].platform)
            && (Loses(c) ==> c.id !in routes)
  {
    var after := Changed(m, c, SetBinding);
    hide Changed;
    forall b | b in routes
      ensures IngestFits(m, presences, b, routes[b])
      ensures IngestFits(after, presences, b, routes[b]) <==>
              && (Loses(c) ==> b != c.id)
              && (SetsGuarded(c) && b == NewKey(c) ==>
                    NewRow(m, c, SetBinding).platform == presences[routes[b]].platform)
    {
      ChangedAt(m, c, SetBinding, b);
    }
    assert forall b :: b in routes ==> routes[b] in presences;
    hide IngestFits, NewRow;
  }

  lemma PresencesStayUnique(m: map<Id, Presence>, c: Change<Presence, PresenceColumns>)
    requires PresencesUnique(m) && !Idle(m, c) && KeyFree(m, c)
    ensures PresencesUnique(Changed(m, c, SetPresence)) <==>
            (!c.Delete? ==> PresenceAccountFree(m, c.id, NewRow(m, c, SetPresence)))
  {
    var after := Changed(m, c, SetPresence);
    forall k ensures !c.Delete? && k in m && k != c.id ==> k in after && NewKey(c) in after && after[k] == m[k] {
      ChangedAt(m, c, SetPresence, k);
    }
  }

  lemma CitedStay(cited: set<Id>, m: map<Id, Presence>, c: Change<Presence, PresenceColumns>)
    requires cited <= m.Keys && !Idle(m, c) && KeyFree(m, c)
    ensures cited <= Changed(m, c, SetPresence).Keys <==> (Loses(c) ==> c.id !in cited)
  {
    var after := Changed(m, c, SetPresence);
    hide Changed;
    forall k | k in cited ensures k in after <==> !(Loses(c) && k == c.id) {
      ChangedAt(m, c, SetPresence, k);
    }
  }

  lemma BindingsStayUnique(m: map<Id, Binding>, c: Change<Binding, BindingColumns>)
    requires BindingsUnique(m) && !Idle(m, c) && KeyFree(m, c)
    ensures BindingsUnique(Changed(m, c, SetBinding)) <==>
            (!c.Delete? ==> BindingAccountFree(m, c.id, NewRow(m, c, SetBinding)))
  {
    var after := Changed(m, c, SetBinding);
    forall k ensures !c.Delete? && k in m && k != c.id ==> k in after && NewKey(c) in after && after[k] == m[k] {
      ChangedAt(m, c, SetBinding, k);
    }
  }

  lemma PresenceGuard(d: Tables, c: Change<Presence, PresenceColumns>)
    requires Consistent(d) && (Idle(d.presences, c) || KeyFree(d.presences, c))
    ensures AcceptsPresence(d, c) <==> Consistent(Apply(d, OnPresence(c)))
  {
    hide AllRoutesFit, AllIngestFit, PresencesUnique, BindingsUnique, KeyFree, PresenceAccountFree;
    if !Idle(d.presences, c) {
      RoutesUnderPresence(d.personRoutes, d.identityBindings, d.presences, c);
      RoutesUnderPresence(d.spaceRoutes, d.spaceBindings, d.presences, c);
      IngestUnderPresence(d.ingestRoutes, d.spaceBindings, d.presences, c);
      IngestBindingsExist(d.ingestRoutes, d.spaceBindings, d.presences);
      PresencesStayUnique(d.presences, c);
      CitedStay(d.cited, d.presences, c);
      hide Changed, SomeRouteMisfits;
    }
  }

  lemma IngestBindingsExist(routes: map<Id, Id>, bindings: map<Id, Binding>, presences: map<Id, Presence>)
    requires AllIngestFit(routes, bindings, presences)
    ensures forall b :: b in routes ==> b in bindings && routes[b] in presences
  {
    assert forall b :: b in routes ==> IngestFits(bindings, presences, b, routes[b]);
  }

  lemma IdentityGuard(d: Tables, c: Change<Binding, BindingColumns>)
    requires Consistent(d) && (Idle(d.identityBindings, c) || KeyFree(d.identityBindings, c))
    ensures AcceptsIdentityBinding(d, c) <==> Consistent(Apply(d, OnIdentityBinding(c)))
  {
    hide AllRoutesFit, AllIngestFit, PresencesUnique, BindingsUnique, KeyFree, BindingAccountFree,
      SomeRouteLosesBinding;
    if !Idle(d.identityBindings, c) {
      RoutesUnderBinding(d.personRoutes, d.identityBindings, d.presences, c);
      BindingsStayUnique(d.identityBindings, c);
      hide Changed;
    }
  }

  lemma SpaceGuard(d: Tables, c: Change<Binding, BindingColumns>)
    requires Consistent(d) && (Idle(d.spaceBindings, c) || KeyFree(d.spaceBindings, c))
    ensures AcceptsSpaceBinding(d, c) <==> Consistent(Apply(d, OnSpaceBinding(c)))
  {
    hide AllRoutesFit, AllIngestFit, PresencesUnique, BindingsUnique, KeyFree, BindingAccountFree,
      SomeRouteLosesBinding;
    if !Idle(d.spaceBindings, c) {
      RoutesUnderBinding(d.spaceRoutes, d.spaceBindings, d.presences, c);
      IngestUnderBinding(d.ingestRoutes, d.spaceBindings, d.presences, c);
      IngestBindingsExist(d.ingestRoutes, d.spaceBindings, d.presences);
      BindingsStayUnique(d.spaceBindings, c);
      hide Changed;
    }
  }

  lemma RouteGuard(routes: map<Id, Route>, bindings: map<Id, Binding>, presences: map<Id, Presence>,
                   c: Change<Route, RouteColumns>)
    requires AllRoutesFit(routes, bindings, presences) && (Idle(routes, c) || KeyFree(routes, c))
    ensures AcceptsRoute(routes, bindings, presences, c)
       <==> AllRoutesFit(Changed(routes, c, SetRoute), bindings, presences)
  {
    if !Idle(routes, c) && !c.Delete? {
      var after := Changed(routes, c, SetRoute);
      ChangedAt(routes, c, SetRoute, NewKey(c));
      assert AllRoutesFit(after, bindings, presences) ==> RouteFits(bindings, presences, NewKey(c), after[NewKey(c)]);
    }
  }

  lemma IngestGuard(d: Tables, c: Change<Id, IngestColumns>)
    requires Consistent(d) && (Idle(d.ingestRoutes, c) || KeyFree(d.ingestRoutes, c))
    ensures AcceptsIngestRoute(d, c) <==> Consistent(Apply(d, OnIngestRoute(c)))
  {
    hide AllRoutesFit, PresencesUnique, BindingsUnique;
    if !Idle(d.ingestRoutes, c) && !c.Delete? {
      var after := Changed(d.ingestRoutes, c, SetIngest);
      ChangedAt(d.ingestRoutes, c, SetIngest, NewKey(c));
      assert AllIngestFit(after, d.spaceBindings, d.presences) ==>
          IngestFits(d.spaceBindings, d.presences, NewKey(c), after[NewKey(c)]);
    }
  }

  lemma KeysAreGuarded(d: Tables, s: Statement)
    requires Accepts(d, s)
    ensures RespectsKey(d, s)
  {}

  /**
   A statement is accepted exactly when it respects the primary key of its table and leaves the whole
   database consistent: the triggers refuse every harmful write and no harmless one.
   */
  lemma AcceptedIffConsistent(d: Tables, s: Statement)
    requires Consistent(d)
    ensures Accepts(d, s) <==> RespectsKey(d, s) && Consistent(Apply(d, s))
  {
    if Accepts(d, s) {
      KeysAreGuarded(d, s);
    }
    if RespectsKey(d, s) {
      match s {
        case OnPresence(c) => PresenceGuard(d, c);
        case OnIdentityBinding(c) => IdentityGuard(d, c);
        case OnSpaceBinding(c) => SpaceGuard(d, c);
        case OnPersonRoute(c) => RouteGuard(d.personRoutes, d.identityBindings, d.presences, c);
        case OnSpaceRoute(c) => RouteGuard(d.spaceRoutes, d.spaceBindings, d.presences, c);
        case OnIngestRoute(c) => IngestGuard(d, c);
        case OnOtherTables(_) => hide AllRoutesFit, AllIngestFit, PresencesUnique, BindingsUnique;
      }
    }
  }

  /* ---- The database ---- */

  class Database {
    var presences: map<Id, Presence>
    var identityBindings: map<Id, Binding>
    var spaceBindings: map<Id, Binding>
    var personRoutes: map<Id, Route>
    var ingestRoutes: map<Id, Id>
    var spaceRoutes: map<Id, Route>
    var cited: set<Id>

    ghost predicate Valid()
      reads this
    {
      Consistent(Contents())
    }

    function Contents(): Tables
      reads this
    {
      Tables(presences, identityBindings, spaceBindings, personRoutes, ingestRoutes, spaceRoutes, cited)
    }

    constructor ()
      ensures Valid() && Contents() == EMPTY
    {
      presences, identityBindings, spaceBindings := map[], map[], map[];
      personRoutes, ingestRoutes, spaceRoutes := map[], map[], map[];
      cited := {};
    }

    method ChangePresence(c: Change<Presence, PresenceColumns>) returns (ok: bool)
      requires Valid()
      modifies this`presences
      ensures Valid() && ok == Accepts(old(Contents()), OnPresence(c))
      ensures Contents() == if ok then Apply(old(Contents()), OnPresence(c)) else old(Contents())
    {
      if Idle(presences, c) {
        return true;
      }
      if c.Update? && c.columns.platform.Some?
         && PresenceUpdateAborts(Contents(), NewKey(c), c.columns.platform.value) {
        return false;
      }
      if !KeyFree(presences, c) {
        return false;
      }
      if !c.Delete? && !PresenceAccountFree(presences, c.id, NewRow(presences, c, SetPresence)) {
        return false;
      }
      if Loses(c) && PresenceUsed(Contents(), c.id) {
        return false;
      }
      AcceptedIffConsistent(Contents(), OnPresence(c));
      presences := Changed(presences, c, SetPresence);
      return true;
    }

    method ChangeIdentityBinding(c: Change<Binding, BindingColumns>) returns (ok: bool)
      requires Valid()
      modifies this`identityBindings
      ensures Valid() && ok == Accepts(old(Contents()), OnIdentityBinding(c))
      ensures Contents() == if ok then Apply(old(Contents()), OnIdentityBinding(c)) else old(Contents())
    {
      if Idle(identityBindings, c) {
        return true;
      }
      if SetsGuarded(c) && IdentityUpdateAborts(Contents(), NewKey(c), NewRow(identityBindings, c, SetBinding)) {
        return false;
      }
      if !KeyFree(identityBindings, c) {
        return false;
      }
      if !c.Delete? && !BindingAccountFree(identityBindings, c.id, NewRow(identityBindings, c, SetBinding)) {
        return false;
      }
      if Loses(c) && IdentityUsed(Contents(), c.id) {
        return false;
      }
      AcceptedIffConsistent(Contents(), OnIdentityBinding(c));
      identityBindings := Changed(identityBindings, c, SetBinding);
      return true;
    }

    method ChangeSpaceBinding(c: Change<Binding, BindingColumns>) returns (ok: bool)
      requires Valid()
      modifies this`spaceBindings
      ensures Valid() && ok == Accepts(old(Contents()), OnSpaceBinding(c))
      ensures Contents() == if ok then Apply(old(Contents()), OnSpaceBinding(c)) else old(Contents())
    {
      if Idle(spaceBindings, c) {
        return true;
      }
      if SetsGuarded(c) && SpaceUpdateAborts(Contents(), NewKey(c), NewRow(spaceBindings, c, SetBinding)) {
        return false;
      }
      if !KeyFree(spaceBindings, c) {
        return false;
      }
      if !c.Delete? && !BindingAccountFree(spaceBindings, c.id, NewRow(spaceBindings, c, SetBinding)) {
        return false;
      }
      if Loses(c) && SpaceUsed(Contents(), c.id) {
        return false;
      }
      AcceptedIffConsistent(Contents(), OnSpaceBinding(c));
      spaceBindings := Changed(spaceBindings, c, SetBinding);
      return true;
    }

    method ChangePersonRoute(c: Change<Route, RouteColumns>) returns (ok: bool)
      requires Valid()
      modifies this`personRoutes
      ensures Valid() && ok == Accepts(old(Contents()), OnPersonRoute(c))
      ensures Contents() == if ok then Apply(old(Contents()), OnPersonRoute(c)) else old(Contents())
    {
      if Idle(personRoutes, c) {
        return true;
      }
      if !c.Delete? && !RouteFits(identityBindings, presences, NewKey(c), NewRow(personRoutes, c, SetRoute)) {
        return false;
      }
      if !KeyFree(personRoutes, c) {
        return false;
      }
      AcceptedIffConsistent(Contents(), OnPersonRoute(c));
      personRoutes := Changed(personRoutes, c, SetRoute);
      return true;
    }

    method ChangeSpaceRoute(c: Change<Route, RouteColumns>) returns (ok: bool)
      requires Valid()
      modifies this`spaceRoutes
      ensures Valid() && ok == Accepts(old(Contents()), OnSpaceRoute(c))
      ensures Contents() == if ok then Apply(old(Contents()), OnSpaceRoute(c)) else old(Contents())
    {
      if Idle(spaceRoutes, c) {
        return true;
      }
      if !c.Delete? && !RouteFits(spaceBindings, presences, NewKey(c), NewRow(spaceRoutes, c, SetRoute)) {
        return false;
      }
      if !KeyFree(spaceRoutes, c) {
        return false;
      }
      AcceptedIffConsistent(Contents(), OnSpaceRoute(c));
      spaceRoutes := Changed(spaceRoutes, c, SetRoute);
      return true;
    }

    method ChangeIngestRoute(c: Change<Id, IngestColumns>) returns (ok: bool)
      requires Valid()
      modifies this`ingestRoutes
      ensures Valid() && ok == Accepts(old(Contents()), OnIngestRoute(c))
      ensures Contents() == if ok then Apply(old(Contents()), OnIngestRoute(c)) else old(Contents())
    {
      if Idle(ingestRoutes, c) {
        return true;
      }
      if !c.Delete? && !IngestFits(spaceBindings, presences, NewKey(c), NewRow(ingestRoutes, c, SetIngest)) {
        return false;
      }
      if !KeyFree(ingestRoutes, c) {
        return false;
      }
      AcceptedIffConsistent(Contents(), OnIngestRoute(c));
      ingestRoutes := Changed(ingestRoutes, c, SetIngest);
      return true;
    }

    // Rows of other tables come and go; their foreign keys demand presences that exist.
    method ChangeOtherTables(now: set<Id>) returns (ok: bool)
      requires Valid()
      modifies this`cited
      ensures Valid() && ok == Accepts(old(Contents()), OnOtherTables(now))
      ensures Contents() == if ok then Apply(old(Contents()), OnOtherTables(now)) else old(Contents())
    {
      ok := now <= presences.Keys;
      if ok {
        cited := now;
      }
    }
  }

  /* ---- Runs ---- */

  const EMPTY := Tables(map[], map[], map[], map[], map[], map[], {})

  // A refused statement leaves everything as it was.
  function Executed(d: Tables, ss: seq<Statement>): Tables {
    if ss == [] then d
    else
      var before, s := Executed(d, ss[..|ss| - 1]), ss[|ss| - 1];
      if Accepts(before, s) then Apply(before, s) else before
  }

  lemma {:induction false} RunStaysConsistent(ss: seq<Statement>)
    ensures Consistent(Executed(EMPTY, ss))
  {
    hide Apply, Accepts;
    if ss != [] {
      RunStaysConsistent(ss[..|ss| - 1]);
      AcceptedIffConsistent(Executed(EMPTY, ss[..|ss| - 1]), ss[|ss| - 1]);
    }
  }

  /**
   After any sequence of statements every route reaches a binding and a presence that exist, on one
   platform, and a person or space route a binding of its own person or space.
   */
  lemma RoutesReachTheirOwners(ss: seq<Statement>)
    ensures
      var d := Executed(EMPTY, ss);
      && (forall p :: p in d.personRoutes ==>
            var r := d.personRoutes[p];
            && r.binding in d.identityBindings && r.presence in d.presences
            && d.identityBindings[r.binding].owner == p
            && d.identityBindings[r.binding].platform == d.presences[r.presence].platform)
      && (forall s :: s in d.spaceRoutes ==>
            var r := d.spaceRoutes[s];
            && r.binding in d.spaceBindings && r.presence in d.presences
            && d.spaceBindings[r.binding].owner == s
            && d.spaceBindings[r.binding].platform == d.presences[r.presence].platform)
      && (forall b :: b in d.ingestRoutes ==>
            && b in d.spaceBindings && d.ingestRoutes[b] in d.presences
            && d.spaceBindings[b].platform == d.presences[d.ingestRoutes[b]].platform)
      && d.cited <= d.presences.Keys
  {
    RunStaysConsistent(ss);
    hide Executed;
    var d := Executed(EMPTY, ss);
    forall p | p in d.personRoutes ensures RouteFits(d.identityBindings, d.presences, p, d.personRoutes[p]) {}
    forall s | s in d.spaceRoutes ensures RouteFits(d.spaceBindings, d.presences, s, d.spaceRoutes[s]) {}
    forall b | b in d.ingestRoutes ensures IngestFits(d.spaceBindings, d.presences, b, d.ingestRoutes[b]) {}
  }
}
