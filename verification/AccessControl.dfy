/** The access controller over its store, each method tied to the value-level operations. */
module AccessControl {
  import opened Options
  import opened Pairing

  datatype Kind = PolicyPairing | PolicyAllowlist | PolicyOpen | PolicyDisabled

  datatype Entry = Entry(channel: string, account: Option<string>, id: string)

  datatype Policy = Policy(kind: Kind, allowlist: Option<seq<Entry>>, ttl: Option<int>, maxPending: Option<int>)

  datatype Outcome<+T> = Returned(value: T) | ConfigError

  const DEFAULT_TTL := 60 * 60 * 1000
  const DEFAULT_MAX_PENDING := 3

  function ConfigOf(policy: Policy): Config {
    Config(if policy.ttl.Some? then policy.ttl.value else DEFAULT_TTL,
           if policy.maxPending.Some? then policy.maxPending.value else DEFAULT_MAX_PENDING)
  }

  predicate Matches(e: Entry, p: Peer) {
    e.channel == p.channel && e.id == p.id && (e.account.None? || e.account.value == p.account)
  }

  predicate Listed(policy: Policy, p: Peer) {
    policy.allowlist.Some? && exists k :: 0 <= k < |policy.allowlist.value| && Matches(policy.allowlist.value[k], p)
  }

  /** The request and paired-peer tables. */
  class Tables {
    var requests: map<Peer, Request>
    var paired: set<Peer>

    ghost function View(): Store
      reads this
    {
      Store(requests, paired)
    }

    constructor ()
      ensures View() == EMPTY
    {
      requests, paired := map[], {};
    }

    method UpsertRequest(p: Peer, r: Request)
      modifies this
      ensures View() == Upsert(old(View()), p, r)
      ensures paired == old(paired) && p in requests && requests[p] == r
      ensures Rows(old(View()), View(), Some(p),
                   q => q in old(requests) && !(q.channel == p.channel && old(requests)[q].code == r.code))
    {
      var others := map q | q in requests && !(q.channel == p.channel && requests[q].code == r.code) :: requests[q];
      requests := others[p := r];
    }

    method FindRequestByCode(channel: string, code: string) returns (found: Option<Peer>)
      requires UniqueCodes(View())
      ensures found == FindByCode(View(), channel, code)
      ensures forall q :: found == Some(q) <==> q in requests && q.channel == channel && requests[q].code == code
    {
      if q :| q in requests && q.channel == channel && requests[q].code == code {
        found := Some(q);
        assert HoldsCode(View(), channel, code, q);
      } else {
        found := None;
      }
    }

    method DeleteRequest(channel: string, code: string)
      modifies this
      ensures View() == DeleteCode(old(View()), channel, code)
      ensures paired == old(paired)
      ensures Rows(old(View()), View(), None,
                   q => q in old(requests) && !(q.channel == channel && old(requests)[q].code == code))
    {
      requests := map q | q in requests && !(q.channel == channel && requests[q].code == code) :: requests[q];
    }

    method CountPending(channel: string, now: int) returns (n: nat)
      ensures n == |LivePeers(View(), channel, now)|
      ensures n == |set q | q in requests && q.channel == channel && requests[q].expires > now|
    {
      n := |set q | q in requests && q.channel == channel && requests[q].expires > now|;
    }

    method PruneExpired(now: int)
      modifies this
      ensures View() == Prune(old(View()), now)
      ensures paired == old(paired)
      ensures Rows(old(View()), View(), None, q => q in old(requests) && old(requests)[q].expires > now)
    {
      requests := map q | q in requests && requests[q].expires > now :: requests[q];
    }
  }

  class Controller {
    const policy: Policy
    const store: Tables?

    constructor (policy: Policy, store: Tables?)
      ensures this.policy == policy && this.store == store
    {
      this.policy, this.store := policy, store;
    }

    /** Fails closed: the pairing policy needs a store, the allowlist policy a non-empty list. */
    static method Create(policy: Policy, store: Tables?) returns (r: Outcome<Controller>)
      ensures r.ConfigError? <==>
              || (policy.kind == PolicyPairing && store == null)
              || (policy.kind == PolicyAllowlist && (policy.allowlist.None? || policy.allowlist.value == []))
      ensures r.Returned? ==> r.value.policy == policy && r.value.store == store
    {
      if policy.kind == PolicyPairing && store == null {
        return ConfigError;
      }
      if policy.kind == PolicyAllowlist && (policy.allowlist.None? || |policy.allowlist.value| == 0) {
        return ConfigError;
      }
      var c := new Controller(policy, store);
      r := Returned(c);
    }

    method InAllowlist(p: Peer) returns (listed: bool)
      ensures listed == Listed(policy, p)
      ensures listed <==> policy.allowlist.Some? &&
                          exists e | e in policy.allowlist.value ::
                            e.channel == p.channel && e.id == p.id && (e.account.None? || e.account.value == p.account)
    {
      if policy.allowlist.None? {
        return false;
      }
      var entries := policy.allowlist.value;
      for k := 0 to |entries|
        invariant forall j :: 0 <= j < k ==> !Matches(entries[j], p)
      {
        if Matches(entries[k], p) {
          return true;
        }
      }
      return false;
    }

    method CheckPeerPairing(p: Peer, now: int, code: string) returns (r: Outcome<Decision>)
      modifies store
      ensures r.ConfigError? <==> store == null
      ensures store != null ==>
                var c := Config(if policy.ttl.Some? then policy.ttl.value else 3600000,
                                if policy.maxPending.Some? then policy.maxPending.value else 3);
                r.Returned? && Checked(c, old(store.View()), p, now, code, store.View(), r.value)
      ensures store != null ==>
                var (s, d) := CheckPairing(ConfigOf(policy), old(store.View()), p, now, code);
                store.View() == s && r == Returned(d)
    {
      r := DecidePairing(p, now, code);
      if store != null {
        CheckExactly(ConfigOf(policy), old(store.View()), p, now, code);
      }
    }

    method DecidePairing(p: Peer, now: int, code: string) returns (r: Outcome<Decision>)
      modifies store
      ensures r.ConfigError? <==> store == null
      ensures store != null ==>
                var (s, d) := CheckPairing(ConfigOf(policy), old(store.View()), p, now, code);
                store.View() == s && r == Returned(d)
    {
      if store == null {
        return ConfigError;
      }
      if p in store.paired {
        return Returned(Allow);
      }
      if p in store.requests && store.requests[p].expires > now {
        return Returned(Challenge(store.requests[p].code, store.requests[p].expires, false));
      }
      store.PruneExpired(now);
      var pending := store.CountPending(p.channel, now);
      if pending >= ConfigOf(policy).maxPending {
        return Returned(Deny(PairingLimit));
      }
      var expires := now + ConfigOf(policy).ttl;
      store.UpsertRequest(p, Request(code, expires));
      r := Returned(Challenge(code, expires, true));
    }

    /** Only the pairing policy reads or writes the store. */
    method CheckIdentity(p: Peer, now: int, code: string) returns (r: Outcome<Decision>)
      modifies store
      ensures policy.kind == PolicyDisabled ==> r == Returned(Deny(Disabled))
      ensures policy.kind == PolicyOpen ==> r == Returned(Allow)
      ensures policy.kind == PolicyAllowlist ==>
                r == Returned(if Listed(policy, p) then Allow else Deny(NotAllowlisted))
      ensures policy.kind == PolicyPairing && store != null ==>
                var (s, d) := CheckPairing(ConfigOf(policy), old(store.View()), p, now, code);
                store.View() == s && r == Returned(d)
      ensures policy.kind == PolicyPairing && store != null ==>
                var c := Config(if policy.ttl.Some? then policy.ttl.value else 3600000,
                                if policy.maxPending.Some? then policy.maxPending.value else 3);
                r.Returned? && Checked(c, old(store.View()), p, now, code, store.View(), r.value)
      ensures policy.kind == PolicyPairing && store == null ==> r == ConfigError
      ensures policy.kind != PolicyPairing && store != null ==> store.View() == old(store.View())
    {
      match policy.kind {
        case PolicyDisabled => r := Returned(Deny(Disabled));
        case PolicyOpen => r := Returned(Allow);
        case PolicyAllowlist =>
          var listed := InAllowlist(p);
          r := Returned(if listed then Allow else Deny(NotAllowlisted));
        case PolicyPairing => r := CheckPeerPairing(p, now, code);
      }
    }

    method ApproveCode(channel: string, code: string, now: int) returns (r: Outcome<Option<Peer>>)
      requires store != null ==> UniqueCodes(store.View())
      modifies store
      ensures r.ConfigError? <==> store == null
      ensures store != null ==>
                var (s, g) := Approve(old(store.View()), channel, code, now);
                store.View() == s && r == Returned(g) && UniqueCodes(s)
      ensures store != null ==> r.Returned? && Approved(old(store.View()), channel, code, now, store.View(), r.value)
    {
      if store == null {
        return ConfigError;
      }
      ApproveExactly(store.View(), channel, code, now);
      var request := store.FindRequestByCode(channel, code);
      if request.None? {
        return Returned(None);
      }
      assert HoldsCode(store.View(), channel, code, request.value);
      var expires := store.requests[request.value].expires;
      store.DeleteRequest(channel, code);
      if expires <= now {
        return Returned(None);
      }
      store.paired := store.paired + {request.value};
      r := Returned(Some(request.value));
    }

    method RevokePeer(p: Peer) returns (r: Outcome<()>)
      modifies store
      ensures r.ConfigError? <==> store == null
      ensures store != null ==> store.View() == Revoke(old(store.View()), p)
      ensures store != null ==> store.paired == old(store.paired) - {p} && store.requests == old(store.requests)
    {
      if store == null {
        return ConfigError;
      }
      store.paired := store.paired - {p};
      r := Returned(());
    }
  }
}
