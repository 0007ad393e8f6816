/** The per-client view of src/components/ClientDashboard.tsx: the client's
    own services, the same start / stop / restart action restricted to
    them, and the summary figures over them. */
module ClientDashboard {
  import opened Basics
  import opened Types
  import opened Store
  import opened App

  /** `services.filter(s => s.client_id === client.id)` */
  function ClientServices(services: seq<Service>, clientId: string): (r: seq<Service>)
    ensures forall s :: s in r <==> s in services && s.client_id == clientId
    ensures SubsequenceOf(r, services)
    ensures (forall s :: s in services ==> s.client_id == clientId) ==> r == services
  {
    var owned := (s: Service) => s.client_id == clientId;
    FilterIsSubsequence(services, owned);
    if forall s :: s in services ==> s.client_id == clientId then
      FilterAll(services, owned);
      Filter(services, owned)
    else
      Filter(services, owned)
  }

  /** `handleServiceAction` of the client view: the lookup runs over the
      client's services only, and no log row is written. */
  function ClientServiceAction(st: StoreState, clientId: string, id: string, a: Action, env: ActionEnv): StoreState
  {
    ServiceAction(st, FindById(ClientServices(st.services, clientId), id), id, a, env)
  }

  /** An action on a service the client does not own changes nothing. */
  lemma ForeignActionIsNoop(st: StoreState, clientId: string, id: string, a: Action, env: ActionEnv)
    requires forall s :: s in st.services && s.id == id ==> s.client_id != clientId
    ensures ClientServiceAction(st, clientId, id, a, env) == st
  {
    var found := FindById(ClientServices(st.services, clientId), id);
    ServiceActionEffect(st, found, id, a, env);
  }

  /** On a service the client owns, with distinct ids, the client view does
      exactly what the main dashboard does. */
  lemma OwnedActionMatchesApp(st: StoreState, clientId: string, id: string, a: Action, env: ActionEnv)
    requires DistinctIds(st.services)
    requires exists s :: s in st.services && s.id == id && s.client_id == clientId
    ensures ClientServiceAction(st, clientId, id, a, env) == AppServiceAction(st, id, a, env)
  {
    var owned := ClientServices(st.services, clientId);
    var f := FindById(owned, id);
    var g := FindById(st.services, id);
    var s :| s in st.services && s.id == id && s.client_id == clientId;
    assert s in owned;
    var i :| 0 <= i < |st.services| && st.services[i] == s;
    var k :| 0 <= k < |st.services| && st.services[k] == g.value &&
             forall j :: 0 <= j < k ==> st.services[j].id != id;
    assert k == i;
    assert f.value in st.services;
    var m :| 0 <= m < |st.services| && st.services[m] == f.value;
    assert m == i;
  }

  /** The client's running and critical counts never exceed the dashboard's
      counts over the whole registry, and equal them (with the average) when
      every service belongs to the client; the average is 0 for a client
      without services. */
  lemma ScopedStats(services: seq<Service>, clientId: string)
    ensures var own := ClientServices(services, clientId);
      && RunningCount(own) <= RunningCount(services)
      && CriticalCount(own) <= CriticalCount(services)
      && ((forall s :: s in services ==> s.client_id == clientId) ==>
            RunningCount(own) == RunningCount(services) && CriticalCount(own) == CriticalCount(services)
            && AvgCpu(own) == AvgCpu(services))
      && (own == [] ==> AvgCpu(own) == 0.0)
  {
    var own := ClientServices(services, clientId);
    FilterSubsequenceCount(own, services, App.IsRunning);
    FilterSubsequenceCount(own, services, App.Critical);
  }

  /** The client view's handler: look up among the client's services,
      switch on the action, patch the store, raise the alert. */
  method HandleClientServiceAction(store: AppStore, clientId: string, id: string, a: Action, env: ActionEnv)
    requires store.Valid()
    modifies store
    ensures store.Valid()
    ensures store.State() == ClientServiceAction(old(store.State()), clientId, id, a, env)
  {
    var clientServices := ClientServices(store.services, clientId);
    var service := FindById(clientServices, id);
    if service.None? {
      return;
    }
    var s := service.value;
    var newStatus := s.status;
    var message := "";
    match a {
      case Start =>
        newStatus := Running;
        message := s.display_name + " started successfully";
      case Stop =>
        newStatus := Stopped;
        message := s.display_name + " stopped";
      case Restart =>
        newStatus := Running;
        message := s.display_name + " restarted";
    }
    var updates := NoChange.(status := Some(newStatus),
                             last_restart := Some(if a == Restart then env.now else s.last_restart),
                             uptime := Some(if a == Stop then 0 else s.uptime));
    store.UpdateService(id, updates, env.now);
    store.AddAlert(AlertInput(SuccessAlert, "Action Completed", message), env.alertId, env.alertAt);
  }
}
