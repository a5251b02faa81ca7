/** Message-queue triggers (pkg/mqtrigger/mqtmanager.go): each round of
    syncTriggers subscribes the listed triggers that are not held and
    unsubscribes the held ones that are no longer listed; any of those calls
    may fail. */
module MqTrigger {
  import opened Keys

  datatype Trigger = Trigger(meta: Meta, messageQueueType: string)
  datatype TriggerSub = TriggerSub(trigger: Trigger, subscription: nat)

  /** The subscriptions that are live in the message queue, and the key each was made for. */
  class MessageQueue {
    var live: map<nat, string>
    var next: nat

    ghost predicate Valid()
      reads this
    {
      forall s :: s in live ==> s < next
    }

    constructor ()
      ensures Valid() && live == map[]
    {
      live, next := map[], 0;
    }

    method Subscribe(t: Trigger, ok: bool) returns (sub: Option<nat>)
      requires Valid()
      modifies this
      ensures Valid()
      ensures if ok then sub.Some? && sub.value !in old(live) && live == old(live)[sub.value := CacheKey(t.meta)]
              else sub == None && live == old(live)
    {
      if !ok {
        return None;
      }
      sub := Some(next);
      live := live[next := CacheKey(t.meta)];
      next := next + 1;
    }

    method Unsubscribe(sub: nat, ok: bool) returns (err: bool)
      requires Valid()
      modifies this
      ensures Valid() && err == !ok && live == if ok then old(live) - {sub} else old(live)
    {
      if ok {
        live := live - {sub};
      }
      return !ok;
    }
  }

  /** One round: the triggers listed, and which calls to the message queue succeed. */
  datatype Round = Round(items: seq<Trigger>, subscribeOk: string -> bool, unsubscribeOk: string -> bool)

  /** The keys of the listed triggers of the given type. */
  function Wants(items: seq<Trigger>, mqType: string): set<string> {
    set t | t in items && t.messageQueueType == mqType :: CacheKey(t.meta)
  }

  /** What one round makes of the held keys. */
  function KeysAfter(held: set<string>, r: Round, mqType: string): set<string> {
    var wanted := Wants(r.items, mqType);
    (set k | k in held && (k in wanted || !r.unsubscribeOk(k))) + (set k | k in wanted - held && r.subscribeOk(k))
  }

  function HeldAfter(held: set<string>, rounds: seq<Round>, mqType: string): set<string>
    decreases |rounds|
  {
    if rounds == [] then held else HeldAfter(KeysAfter(held, rounds[0], mqType), rounds[1..], mqType)
  }

  class Manager {
    var triggers: map<string, TriggerSub>
    const messageQueueType: string
    const messageQueue: MessageQueue

    /** The live subscriptions are exactly those held, each for its own key, no key twice. */
    ghost predicate Conserves()
      reads this, messageQueue
    {
      && messageQueue.Valid()
      && (forall k :: k in triggers ==> CacheKey(triggers[k].trigger.meta) == k)
      && (forall k :: k in triggers ==>
            var s := triggers[k].subscription; s in messageQueue.live && messageQueue.live[s] == k)
      && (forall s :: s in messageQueue.live ==>
            messageQueue.live[s] in triggers && triggers[messageQueue.live[s]].subscription == s)
    }

    constructor (mqType: string, mq: MessageQueue)
      requires mq.Valid() && mq.live == map[]
      ensures Conserves() && triggers == map[] && messageQueue == mq && messageQueueType == mqType
    {
      triggers, messageQueueType, messageQueue := map[], mqType, mq;
    }

    method AddTrigger(sub: TriggerSub) returns (err: bool)
      modifies this
      ensures var k := CacheKey(sub.trigger.meta);
        err == (k in old(triggers)) && triggers == if err then old(triggers) else old(triggers)[k := sub]
    {
      var k := CacheKey(sub.trigger.meta);
      if k in triggers {
        err := true;
      } else {
        triggers := triggers[k := sub];
        err := false;
      }
    }

    method DelTrigger(m: Meta)
      modifies this
      ensures triggers == old(triggers) - {CacheKey(m)}
    {
      triggers := triggers - {CacheKey(m)};
    }

    /** t is one of the listed triggers of this manager's type, under the key k. */
    predicate IsListed(items: seq<Trigger>, t: Trigger, k: string) {
      t in items && t.messageQueueType == messageQueueType && CacheKey(t.meta) == k
    }

    /** The listed triggers of this manager's type, by key. */
    method Wanted(items: seq<Trigger>) returns (wanted: map<string, Trigger>)
      ensures wanted.Keys == Wants(items, messageQueueType)
      ensures forall k :: k in wanted ==> IsListed(items, wanted[k], k)
    {
      wanted := map[];
      for i := 0 to |items|
        invariant wanted.Keys == Wants(items[..i], messageQueueType)
        invariant forall k :: k in wanted ==> IsListed(items, wanted[k], k)
      {
        if items[i].messageQueueType == messageQueueType {
          wanted := wanted[CacheKey(items[i].meta) := items[i]];
        }
        WantsNext(items, i, messageQueueType);
      }
      assert items[..|items|] == items;
    }

    /** One round. fatal tells whether addTrigger reported a duplicate, which
        would have ended the process. */
    method SyncRound(r: Round) returns (fatal: bool)
      requires Conserves()
      modifies this, messageQueue
      ensures Conserves() && !fatal
      ensures triggers.Keys == KeysAfter(old(triggers).Keys, r, messageQueueType)
      ensures forall k :: k in old(triggers) && k in triggers ==> triggers[k] == old(triggers)[k]
      ensures forall k :: k in triggers && k !in old(triggers) ==> IsListed(r.items, triggers[k].trigger, k)
    {
      var newTriggerMap := Wanted(r.items);
      var currentTriggers := triggers;
      fatal := Register(newTriggerMap, currentTriggers, r.subscribeOk);
      ghost var registered := triggers.Keys;
      RemoveOld(newTriggerMap, currentTriggers, r.unsubscribeOk);
      RoundKeys(currentTriggers.Keys, registered, triggers.Keys, r, messageQueueType);
    }

    method SyncTriggers(rounds: seq<Round>) returns (fatal: bool)
      requires Conserves()
      modifies this, messageQueue
      ensures Conserves() && !fatal
      ensures triggers.Keys == HeldAfter(old(triggers).Keys, rounds, messageQueueType)
    {
      fatal := false;
      ghost var goal := HeldAfter(triggers.Keys, rounds, messageQueueType);
      for i := 0 to |rounds|
        invariant Conserves() && !fatal
        invariant HeldAfter(triggers.Keys, rounds[i..], messageQueueType) == goal
      {
        assert rounds[i..][1..] == rounds[i + 1..];
        fatal := SyncRound(rounds[i]);
      }
    }

    /** One new trigger: subscribe, then add it to the list. */
    method SubscribeAndAdd(trigger: Trigger, ok: bool) returns (fatal: bool)
      requires Conserves() && CacheKey(trigger.meta) !in triggers
      modifies this, messageQueue
      ensures Conserves() && !fatal
      ensures var k := CacheKey(trigger.meta);
        if ok then k in triggers && triggers[k].trigger == trigger && triggers == old(triggers)[k := triggers[k]]
        else triggers == old(triggers)
    {
      var sub := messageQueue.Subscribe(trigger, ok);
      if sub == None {
        return false;
      }
      fatal := AddTrigger(TriggerSub(trigger, sub.value));
    }

    /** One old trigger: unsubscribe, then delete it from the list. */
    method UnsubscribeAndDel(ghost key: string, triggerSub: TriggerSub, ok: bool)
      requires Conserves() && key in triggers && triggers[key] == triggerSub
      modifies this, messageQueue
      ensures Conserves() && triggers == if ok then old(triggers) - {key} else old(triggers)
    {
      var err := messageQueue.Unsubscribe(triggerSub.subscription, ok);
      if err {
        return;
      }
      DelTrigger(triggerSub.trigger.meta);
    }

    /** The first half of a round: register new triggers. */
    method Register(newTriggerMap: map<string, Trigger>, currentTriggers: map<string, TriggerSub>,
                    subscribeOk: string -> bool)
      returns (fatal: bool)
      requires Conserves() && triggers == currentTriggers
      requires forall k :: k in newTriggerMap ==> CacheKey(newTriggerMap[k].meta) == k
      modifies this, messageQueue
      ensures Conserves() && !fatal
      ensures Registered(triggers, currentTriggers, {}, newTriggerMap, subscribeOk)
    {
      fatal := false;
      var rest := newTriggerMap.Keys;
      while rest != {}
        invariant Conserves() && !fatal && rest <= newTriggerMap.Keys
        invariant Registered(triggers, currentTriggers, rest, newTriggerMap, subscribeOk)
      {
        var key :| key in rest;
        ghost var before := triggers;
        if key !in currentTriggers {
          fatal := SubscribeAndAdd(newTriggerMap[key], subscribeOk(key));
        }
        RegisterOne(before, triggers, currentTriggers, rest, key, newTriggerMap, subscribeOk);
        rest := rest - {key};
      }
    }

    /** The second half: remove old triggers. */
    method RemoveOld(newTriggerMap: map<string, Trigger>, currentTriggers: map<string, TriggerSub>,
                     unsubscribeOk: string -> bool)
      requires Conserves()
      requires forall k :: k in currentTriggers ==> k in triggers && triggers[k] == currentTriggers[k]
      modifies this, messageQueue
      ensures Conserves()
      ensures Unlisted(old(triggers), triggers, currentTriggers, {}, newTriggerMap, unsubscribeOk)
    {
      var rest := currentTriggers.Keys;
      ghost var was := triggers;
      while rest != {}
        invariant Conserves() && rest <= currentTriggers.Keys
        invariant Unlisted(was, triggers, currentTriggers, rest, newTriggerMap, unsubscribeOk)
      {
        var key :| key in rest;
        UnlistOne(was, triggers, currentTriggers, rest, key, newTriggerMap, unsubscribeOk);
        if key !in newTriggerMap {
          UnsubscribeAndDel(key, currentTriggers[key], unsubscribeOk(key));
        }
        rest := rest - {key};
      }
    }
  }

  /** now is current with the new keys, but for the rest, where subscribing worked. */
  ghost predicate Registered(now: map<string, TriggerSub>, current: map<string, TriggerSub>, rest: set<string>,
                             listed: map<string, Trigger>, subscribeOk: string -> bool) {
    && (forall k :: k in now <==> k in current || (k in listed && k !in rest && subscribeOk(k)))
    && (forall k :: k in current ==> now[k] == current[k])
    && (forall k :: k in now && k !in current ==> now[k].trigger == listed[k])
  }

  lemma RegisterOne(before: map<string, TriggerSub>, now: map<string, TriggerSub>, current: map<string, TriggerSub>,
                    rest: set<string>, key: string, listed: map<string, Trigger>, subscribeOk: string -> bool)
    requires Registered(before, current, rest, listed, subscribeOk) && key in rest && rest <= listed.Keys
    requires if key !in current && subscribeOk(key)
             then key in now && now[key].trigger == listed[key] && now == before[key := now[key]]
             else now == before
    ensures Registered(now, current, rest - {key}, listed, subscribeOk)
  {
  }

  /** now is what is left of was once the current keys, but for the rest, were
      unsubscribed unless wanted, where that worked. */
  ghost predicate Unlisted(was: map<string, TriggerSub>, now: map<string, TriggerSub>, current: map<string, TriggerSub>,
                           rest: set<string>,
                           wanted: map<string, Trigger>, unsubscribeOk: string -> bool) {
    && now.Keys <= was.Keys
    && (forall k :: k in was ==> (k in now <==> k !in current || k in rest || k in wanted || !unsubscribeOk(k)))
    && (forall k :: k in now ==> now[k] == was[k])
  }

  lemma UnlistOne(was: map<string, TriggerSub>, now: map<string, TriggerSub>, current: map<string, TriggerSub>,
                  rest: set<string>,
                  key: string, wanted: map<string, Trigger>, unsubscribeOk: string -> bool)
    requires Unlisted(was, now, current, rest, wanted, unsubscribeOk) && rest <= current.Keys
    requires key in rest && (forall k :: k in current ==> k in was && was[k] == current[k])
    ensures key in now && now[key] == current[key]
    ensures var now' := if key in wanted || !unsubscribeOk(key) then now else now - {key};
      Unlisted(was, now', current, rest - {key}, wanted, unsubscribeOk)
  {
  }

  // ----- rounds

  lemma RoundKeys(held: set<string>, registered: set<string>, after: set<string>, r: Round, mqType: string)
    requires var wanted := Wants(r.items, mqType);
      && (forall k :: k in registered <==> k in held || (k in wanted && r.subscribeOk(k)))
      && (forall k :: k in after <==> k in registered && (k !in held || k in wanted || !r.unsubscribeOk(k)))
    ensures after == KeysAfter(held, r, mqType)
  {
  }

  lemma WantsNext(items: seq<Trigger>, i: nat, mqType: string)
    requires i < |items|
    ensures Wants(items[..i + 1], mqType) ==
      Wants(items[..i], mqType) + if items[i].messageQueueType == mqType then {CacheKey(items[i].meta)} else {}
  {
    assert items[..i + 1] == items[..i] + [items[i]];
  }

  /** After a round a key is held if a trigger of this type is listed under it,
      and it was held or could be subscribed, or if none is, and it was held and
      could not be unsubscribed. */
  lemma RoundIsExact(held: set<string>, r: Round, mqType: string, k: string)
    ensures var listed := exists t :: t in r.items && t.messageQueueType == mqType && CacheKey(t.meta) == k;
      k in KeysAfter(held, r, mqType) <==>
        if listed then k in held || r.subscribeOk(k) else k in held && !r.unsubscribeOk(k)
  {
  }

  /** Whatever failed before, a round without failures ends with exactly the wanted keys. */
  lemma {:induction false} CleanRoundConverges(held: set<string>, rounds: seq<Round>, last: Round, mqType: string)
    requires forall k :: last.subscribeOk(k) && last.unsubscribeOk(k)
    ensures HeldAfter(held, rounds + [last], mqType) == Wants(last.items, mqType)
    decreases |rounds|
  {
    if rounds == [] {
      assert (rounds + [last])[1..] == [] && (rounds + [last])[0] == last;
      assert KeysAfter(held, last, mqType) == Wants(last.items, mqType);
    } else {
      assert (rounds + [last])[1..] == rounds[1..] + [last];
      CleanRoundConverges(KeysAfter(held, rounds[0], mqType), rounds[1..], last, mqType);
    }
  }

  /** A key held at the end was held at the start, or wanted in some round; one
      held at the start and wanted in every round is held throughout. */
  lemma {:induction false} HeldOnlyIfWanted(held: set<string>, rounds: seq<Round>, k: string, mqType: string)
    ensures k in HeldAfter(held, rounds, mqType) ==>
      k in held || exists i :: 0 <= i < |rounds| && k in Wants(rounds[i].items, mqType)
    ensures k in held && (forall i :: 0 <= i < |rounds| ==> k in Wants(rounds[i].items, mqType)) ==>
      k in HeldAfter(held, rounds, mqType)
    decreases |rounds|
  {
    if rounds != [] {
      HeldOnlyIfWanted(KeysAfter(held, rounds[0], mqType), rounds[1..], k, mqType);
      assert forall i :: 0 <= i < |rounds| - 1 ==> rounds[1..][i] == rounds[i + 1];
    }
  }
}
