/** Weighted fairness as a configuration has it: for the groups and lists of endpoints that are written there, with
    their policies and weights, and for the errors of actions that name none. */
module Fairness {
  import opened Common
  import opened Balancer

  /** What the endpoints of a pool add up to: their weights, or one each. */
  ghost function Round(policy: BalancePolicy, endpoints: seq<UpstreamEndpoint>): nat {
    if policy.WeightedRoundRobin? then Total(endpoints) else |endpoints|
  }

  ghost function ShareOf(policy: BalancePolicy, endpoint: UpstreamEndpoint): nat {
    if policy.WeightedRoundRobin? then endpoint.weight else 1
  }

  lemma RoundIsTotal(policy: BalancePolicy, endpoints: seq<UpstreamEndpoint>)
    ensures Total(Shares(policy, endpoints)) == Round(policy, endpoints)
  {
    if policy.RoundRobin? {
      UnitShares(endpoints, |endpoints|);
      assert Shares(policy, endpoints)[..|endpoints|] == Shares(policy, endpoints);
    }
  }

  /** The endpoints chosen for the actions of one kind, in order. */
  ghost function ChosenFor(actions: seq<Action>, picks: seq<Pick>, wanted: Action -> bool): seq<nat>
    requires |actions| == |picks|
  {
    if picks == [] then []
    else
      var n := |picks| - 1;
      var rest := ChosenFor(actions[..n], picks[..n], wanted);
      if wanted(actions[n]) then rest + [picks[n].index] else rest
  }

  ghost function Naming(name: Bytes): Action -> bool {
    (action: Action) => action.Proxy? && action.upstreamGroup == Some(name)
  }

  ghost function Listing(policy: BalancePolicy, endpoints: seq<UpstreamEndpoint>): Action -> bool {
    (action: Action) => action.Proxy? && action.policy == policy && action.upstreams == endpoints
  }

  /** Every action is one of a valid configuration, and its list can be told from all others. */
  ghost predicate AllConfigured(groups: map<Bytes, UpstreamGroup>, actions: seq<Action>) {
    ValidGroups(groups)
    && forall k | 0 <= k < |actions| :: actions[k].Proxy? && ValidAction(groups, actions[k]) && KeyedAlone(actions[k])
  }

  lemma {:induction false} ChosenIsPicked(actions: seq<Action>, picks: seq<Pick>, wanted: Action -> bool, key: Bytes)
    requires |actions| == |picks|
    requires forall k | 0 <= k < |picks| :: Draws(picks[k], key) <==> wanted(actions[k])
    ensures ChosenFor(actions, picks, wanted) == PickedFrom(picks, key)
  {
    if picks != [] {
      var n := |picks| - 1;
      forall k | 0 <= k < n ensures Draws(picks[..n][k], key) <==> wanted(actions[..n][k]) {
        assert picks[..n][k] == picks[k] && actions[..n][k] == actions[k];
      }
      ChosenIsPicked(actions[..n], picks[..n], wanted, key);
      assert Draws(picks[n], key) <==> wanted(actions[n]);
    }
  }

  lemma NamedTarget(groups: map<Bytes, UpstreamGroup>, action: Action, name: Bytes)
    requires ValidGroups(groups) && action.Proxy? && ValidAction(groups, action) && KeyedAlone(action)
    ensures (TargetOf(groups, action).From? && TargetOf(groups, action).pool.key == NamedKey(name)) <==>
              Naming(name)(action)
  {
    var given := if action.upstreamGroup.Some? then action.upstreamGroup.value else "";
    KeysAreDistinct(action.policy, action.upstreams, action.policy, action.upstreams, given, name);
  }

  lemma ListedTarget(
      groups: map<Bytes, UpstreamGroup>, action: Action, policy: BalancePolicy, endpoints: seq<UpstreamEndpoint>)
    requires ValidGroups(groups) && action.Proxy? && ValidAction(groups, action) && KeyedAlone(action)
    requires endpoints != [] && Decoded(endpoints) && Unsplittable(endpoints)
    ensures (TargetOf(groups, action).From? && TargetOf(groups, action).pool.key == InlineKey(policy, endpoints)) <==>
              Listing(policy, endpoints)(action)
  {
    var given := if action.upstreamGroup.Some? then action.upstreamGroup.value else "";
    KeysAreDistinct(policy, endpoints, action.policy, action.upstreams, given, given);
  }

  /** Group `g` of the configuration: whatever else is selected in between, a stretch of a run that selects from it as
      often as its servers add up to chooses each of them as often as its weight says, or once if the group does not go
      by weight, as long as its 64-bit cursor does not wrap on the way. */
  lemma GroupFairness(
      groups: map<Bytes, UpstreamGroup>, states: seq<map<Bytes, nat>>, actions: seq<Action>, picks: seq<Pick>,
      g: Bytes, i: nat)
    requires AllConfigured(groups, actions) && g in groups && i < |groups[g].servers|
    requires IsRun(states, picks) && Leads(groups, actions, picks)
    requires |ChosenFor(actions, picks, Naming(g))| == Round(groups[g].policy, groups[g].servers)
    requires CursorAt(states[0], "named:" + g) + Round(groups[g].policy, groups[g].servers) <= U64
    ensures Times(ChosenFor(actions, picks, Naming(g)), i) == ShareOf(groups[g].policy, groups[g].servers[i])
  {
    var action := Proxy(None, Some(g), [], RoundRobin);
    forall k | 0 <= k < |picks| ensures Draws(picks[k], NamedKey(g)) <==> Naming(g)(actions[k]) {
      NamedTarget(groups, actions[k], g);
    }
    ChosenIsPicked(actions, picks, Naming(g), NamedKey(g));
    RoundIsTotal(groups[g].policy, groups[g].servers);
    assert ValidAction(groups, action) && KeyedAlone(action);
    WeightedFairness(groups, states, actions, picks, action, i);
  }

  /** The same for a list of endpoints written with an action. */
  lemma ListFairness(
      groups: map<Bytes, UpstreamGroup>, states: seq<map<Bytes, nat>>, actions: seq<Action>, picks: seq<Pick>,
      action: Action, i: nat)
    requires AllConfigured(groups, actions) && action.Proxy? && ValidAction(groups, action) && KeyedAlone(action)
    requires i < |action.upstreams| && IsRun(states, picks) && Leads(groups, actions, picks)
    requires |ChosenFor(actions, picks, Listing(action.policy, action.upstreams))| ==
      Round(action.policy, action.upstreams)
    requires CursorAt(states[0], InlineKey(action.policy, action.upstreams))
      + Round(action.policy, action.upstreams) <= U64
    ensures Times(ChosenFor(actions, picks, Listing(action.policy, action.upstreams)), i) ==
            ShareOf(action.policy, action.upstreams[i])
  {
    var policy, endpoints := action.policy, action.upstreams;
    var key := InlineKey(policy, endpoints);
    forall k | 0 <= k < |picks| ensures Draws(picks[k], key) <==> Listing(policy, endpoints)(actions[k]) {
      ListedTarget(groups, actions[k], policy, endpoints);
    }
    ChosenIsPicked(actions, picks, Listing(policy, endpoints), key);
    RoundIsTotal(policy, endpoints);
    WeightedFairness(groups, states, actions, picks, action, i);
  }

  /** Exactly the actions that lead nowhere, and what is said of them. */
  lemma NowhereExactly(groups: map<Bytes, UpstreamGroup>, action: Action, error: BalanceError)
    ensures TargetOf(groups, action) == Nowhere(error) <==>
              match error
              case NotProxy => !action.Proxy?
              case AmbiguousUpstream =>
                action.Proxy?
                && (|| (action.upstream.Some? && action.upstreamGroup.Some?)
                    || (action.upstream.Some? && action.upstreams != [])
                    || (action.upstreamGroup.Some? && action.upstreams != []))
              case UnknownGroup(name) =>
                action.Proxy? && action.upstream == None && action.upstreamGroup == Some(name)
                && action.upstreams == [] && name !in groups
              case MissingUpstream =>
                action.Proxy? && action.upstream == None && action.upstreams == []
                && (action.upstreamGroup == None
                    || (action.upstreamGroup.value in groups && groups[action.upstreamGroup.value].servers == []))
              case InvalidWeight => false
  {
  }
}
