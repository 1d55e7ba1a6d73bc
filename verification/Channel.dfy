/**
  The two walks over a channel's subscriber proxies, as the holder of the channel mutex runs them:
  delivery in `_publisher_task` and the search of `subscription_unsubscribe`. Nobody else moves the
  list meanwhile.
 */
module Channel {
  import opened Prelude
  import opened Broker

  class Proxy {
    const id: nat
    var active: bool
    var inbox: seq<Msg>
    /** What the consumer has taken out of the inbox, and the length of the channel's log when it joined. */
    ghost var taken: seq<Msg>
    ghost const join: nat

    constructor (id: nat, ghost join: nat)
      ensures this.id == id && active && inbox == [] && taken == [] && this.join == join
    {
      this.id, active, inbox := id, true, [];
      taken, this.join := [], join;
    }
  }

  /** What an active proxy's history is, given the channel's log: everything since it joined. */
  ghost predicate UpToDate(proxy: Proxy, log: seq<Msg>)
    reads proxy
  {
    proxy.active ==> proxy.join <= |log| && proxy.taken + proxy.inbox == log[proxy.join..]
  }

  class Channel {
    const name: string
    var proxies: seq<Proxy>
    /** The messages delivered on this channel, in order. */
    ghost var log: seq<Msg>

    ghost predicate Valid()
      reads this, proxies
    {
      && (forall i, j :: 0 <= i < j < |proxies| ==> proxies[i] != proxies[j] && proxies[i].id != proxies[j].id)
      && (forall i :: 0 <= i < |proxies| ==> UpToDate(proxies[i], log))
    }

    constructor (name: string)
      ensures Valid() && this.name == name && proxies == [] && log == []
    {
      this.name, proxies, log := name, [], [];
    }

    /** `subscribe` under the channel mutex: the new proxy goes last and has seen nothing. */
    method Join(id: nat) returns (proxy: Proxy)
      requires Valid() && forall i :: 0 <= i < |proxies| ==> proxies[i].id != id
      modifies this
      ensures Valid() && fresh(proxy) && proxy.id == id && proxy.active && proxy.taken + proxy.inbox == []
      ensures proxies == old(proxies) + [proxy] && log == old(log)
    {
      proxy := new Proxy(id, |log|);
      proxies := proxies + [proxy];
    }

    /** The delivery walk: one copy of the message to every active proxy, nothing to the others. */
    method Deliver(m: Msg)
      requires Valid() && m.name == name
      modifies this`log, proxies
      ensures Valid() && log == old(log) + [m]
      ensures forall i :: 0 <= i < |proxies| ==>
        && proxies[i].active == old(proxies[i].active)
        && proxies[i].taken == old(proxies[i].taken)
        && proxies[i].inbox == old(proxies[i].inbox) + if proxies[i].active then [m] else []
    {
      var i := 0;
      while i < |proxies|
        invariant i <= |proxies| && log == old(log)
        invariant forall j :: 0 <= j < |proxies| ==>
          proxies[j].active == old(proxies[j].active) && proxies[j].taken == old(proxies[j].taken)
        invariant forall j :: 0 <= j < i ==>
          proxies[j].inbox == old(proxies[j].inbox) + if proxies[j].active then [m] else []
        invariant forall j :: i <= j < |proxies| ==> proxies[j].inbox == old(proxies[j].inbox)
      {
        if proxies[i].active {
          proxies[i].inbox := proxies[i].inbox + [m];
        }
        i := i + 1;
      }
      log := log + [m];
      forall j | 0 <= j < |proxies| ensures UpToDate(proxies[j], log) {
        assert old(UpToDate(proxies[j], log));
      }
    }

    /** `try_receive`: the oldest message, or code 1 for an inactive proxy or an empty inbox. */
    method TryReceive(proxy: Proxy) returns (code: int, out: Option<Msg>)
      requires Valid() && proxy in proxies
      modifies proxy
      ensures Valid() && proxy.active == old(proxy.active)
      ensures proxy.taken + proxy.inbox == old(proxy.taken + proxy.inbox)
      ensures if old(proxy.active && proxy.inbox != [])
        then code == 0 && out == Some(old(proxy.inbox)[0]) && proxy.taken == old(proxy.taken) + [old(proxy.inbox)[0]]
        else code == 1 && out == None && proxy.taken == old(proxy.taken)
    {
      if !proxy.active || proxy.inbox == [] {
        return 1, None;
      }
      out := Some(proxy.inbox[0]);
      proxy.taken := proxy.taken + [proxy.inbox[0]];
      proxy.inbox := proxy.inbox[1..];
      code := 0;
      forall j | 0 <= j < |proxies| ensures UpToDate(proxies[j], log) {
        assert old(UpToDate(proxies[j], log));
      }
    }

    /** The search of `unsubscribe`: the proxy with the id leaves, the others keep their order. */
    method Remove(id: nat) returns (found: Option<Proxy>)
      requires Valid()
      modifies this`proxies
      ensures Valid() && log == old(log)
      ensures found.Some? <==> exists i :: 0 <= i < |old(proxies)| && old(proxies)[i].id == id
      ensures found.None? ==> proxies == old(proxies)
      ensures found.Some? ==>
        && found.value.id == id
        && (exists i :: 0 <= i < |old(proxies)| && old(proxies)[i] == found.value
              && proxies == old(proxies)[..i] + old(proxies)[i + 1..])
      ensures forall i :: 0 <= i < |proxies| ==> proxies[i].id != id
    {
      var i := 0;
      while i < |proxies|
        invariant i <= |proxies| && proxies == old(proxies)
        invariant forall j :: 0 <= j < i ==> proxies[j].id != id
      {
        if proxies[i].id == id {
          found := Some(proxies[i]);
          proxies := proxies[..i] + proxies[i + 1..];
          return;
        }
        i := i + 1;
      }
      found := None;
    }
  }
}
