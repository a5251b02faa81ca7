/** Time triggers (pkg/timer/timer.go): one running cron per listed trigger. */
module Timer {
  import opened Keys

  datatype TimeTrigger = TimeTrigger(meta: Meta, cron: string)

  class Cron {
    const spec: string
    var running: bool

    /** cron.New, AddFunc and Start. */
    constructor (spec: string)
      ensures this.spec == spec && running
    {
      this.spec, running := spec, true;
    }
  }

  datatype Item = Item(trigger: TimeTrigger, cron: Cron)

  /** The last trigger of the list with this key, if any. */
  function Latest(list: seq<TimeTrigger>, key: string): Option<TimeTrigger> {
    if list == [] then None
    else if CacheKey(list[|list| - 1].meta) == key then Some(list[|list| - 1])
    else Latest(list[..|list| - 1], key)
  }

  /** Latest, in terms of the list's positions. */
  lemma {:induction false} LatestIsLast(list: seq<TimeTrigger>, key: string) returns (i: int)
    ensures Latest(list, key) == None <==> forall j :: 0 <= j < |list| ==> CacheKey(list[j].meta) != key
    ensures Latest(list, key).Some? ==>
      && 0 <= i < |list| && CacheKey(list[i].meta) == key && Latest(list, key) == Some(list[i])
      && forall j :: i < j < |list| ==> CacheKey(list[j].meta) != key
  {
    i := -1;
    if list != [] {
      if CacheKey(list[|list| - 1].meta) == key {
        i := |list| - 1;
      } else {
        i := LatestIsLast(list[..|list| - 1], key);
      }
    }
  }

  /** Every listed trigger with this key has t's cron spec. */
  ghost predicate SameSpec(list: seq<TimeTrigger>, t: TimeTrigger, key: string) {
    forall i :: 0 <= i < |list| && CacheKey(list[i].meta) == key ==> list[i].cron == t.cron
  }

  /** What the first n triggers of the list make of the items, and the set of
      their keys: each listed key holds the last trigger listed under it, and
      keeps its cron if the cron spec never changed. */
  ghost predicate Updated(list: seq<TimeTrigger>, n: nat, was: map<string, Item>, now: map<string, Item>,
                          keys: set<string>)
    requires n <= |list|
  {
    && (forall k :: k in keys <==> Latest(list[..n], k).Some?)
    && now.Keys == was.Keys + keys
    && (forall k :: k in keys ==> now[k].trigger == Latest(list[..n], k).value)
    && (forall k | k in was && SameSpec(list, was[k].trigger, k) ::
          now[k].cron == was[k].cron && now[k].trigger.cron == was[k].trigger.cron)
  }

  lemma UpdateOne(list: seq<TimeTrigger>, n: nat, was: map<string, Item>, before: map<string, Item>,
                  now: map<string, Item>, keys: set<string>)
    requires n < |list| && Updated(list, n, was, before, keys)
    requires var k := CacheKey(list[n].meta);
      && k in now && now == before[k := now[k]] && now[k].trigger == list[n]
      && (k in before && before[k].trigger.cron == list[n].cron ==> now[k].cron == before[k].cron)
    ensures Updated(list, n + 1, was, now, keys + {CacheKey(list[n].meta)})
  {
    assert list[..n + 1][..n] == list[..n];
  }

  class Timer {
    var triggers: map<string, Item>
    ghost var started: set<Cron>       // every cron ever started

    predicate Held(c: Cron)
      reads this
    {
      exists k :: k in triggers && triggers[k].cron == c
    }

    /** Every cron ever started is stopped, or held by exactly one entry; an
        entry's cron runs, and was created with the entry's current spec. */
    ghost predicate Conserves()
      reads this, started
    {
      && (forall k :: k in triggers ==> triggers[k].cron in started && ItemOk(k, triggers[k]))
      && (forall k, l :: k in triggers && l in triggers && triggers[k].cron == triggers[l].cron ==> k == l)
      && (forall c :: c in started && c.running ==> Held(c))
    }

    ghost predicate ItemOk(k: string, item: Item)
      reads item.cron
    {
      CacheKey(item.trigger.meta) == k && item.cron.running && item.cron.spec == item.trigger.cron
    }

    constructor ()
      ensures Conserves() && triggers == map[] && started == {}
    {
      triggers, started := map[], {};
    }

    /** Stops the cron held under k; its entry is about to go or to get a new cron. */
    method Drop(k: string)
      requires Conserves() && k in triggers
      modifies this`triggers, triggers[k].cron
      ensures Conserves() && triggers == old(triggers) - {k}
      ensures !old(triggers)[k].cron.running
    {
      var was, v := triggers, triggers[k];
      v.cron.running := false;
      triggers := triggers - {k};
      forall c | c in started && c.running ensures Held(c) {
        var l :| l in was && was[l].cron == c;
        assert triggers[l].cron == c;
      }
    }

    /** Starts a cron for t under its key, which holds none. */
    method NewCron(t: TimeTrigger)
      requires Conserves() && CacheKey(t.meta) !in triggers
      modifies this
      ensures Conserves() && old(started) <= started && fresh(started - old(started))
      ensures var k := CacheKey(t.meta);
        && k in triggers && triggers == old(triggers)[k := triggers[k]]
        && triggers[k].trigger == t && fresh(triggers[k].cron)
    {
      var k, was := CacheKey(t.meta), triggers;
      var c := new Cron(t.cron);
      started := started + {c};
      triggers := triggers[k := Item(t, c)];
      forall d | d in started && d.running ensures Held(d) {
        if d != c {
          var l :| l in was && was[l].cron == d;
          assert triggers[l].cron == d;
        } else {
          assert triggers[k].cron == c;
        }
      }
    }

    /** Keeps the cron held under t's key, which has t's spec. */
    method Refresh(t: TimeTrigger)
      requires Conserves() && CacheKey(t.meta) in triggers && triggers[CacheKey(t.meta)].trigger.cron == t.cron
      modifies this`triggers
      ensures Conserves()
      ensures var k := CacheKey(t.meta); triggers == old(triggers)[k := old(triggers)[k].(trigger := t)]
    {
      var k, was := CacheKey(t.meta), triggers;
      triggers := triggers[k := triggers[k].(trigger := t)];
      forall c | c in started && c.running ensures Held(c) {
        var l :| l in was && was[l].cron == c;
        assert triggers[l].cron == c;
      }
    }

    /** One listed trigger: a cron whose spec changed is stopped and replaced. */
    method Update(t: TimeTrigger)
      requires Conserves()
      modifies this, started
      ensures Conserves() && old(started) <= started && fresh(started - old(started))
      ensures var k := CacheKey(t.meta);
        && k in triggers && triggers == old(triggers)[k := triggers[k]] && triggers[k].trigger == t
        && (k in old(triggers) && old(triggers)[k].trigger.cron == t.cron ==> triggers[k].cron == old(triggers)[k].cron)
    {
      var k := CacheKey(t.meta);
      if k in triggers {
        var item := triggers[k];
        if item.trigger.cron != t.cron {
          Drop(k);
          NewCron(t);
        } else {
          Refresh(t);
        }
      } else {
        NewCron(t);
      }
    }

    method SyncCron(list: seq<TimeTrigger>)
      requires Conserves()
      modifies this, started
      ensures Conserves() && old(started) <= started
      ensures forall k :: k in triggers <==> Latest(list, k).Some?
      ensures forall k :: k in triggers ==> triggers[k].trigger == Latest(list, k).value
      ensures forall k | k in triggers && k in old(triggers) && SameSpec(list, old(triggers)[k].trigger, k) ::
        triggers[k].cron == old(triggers)[k].cron
    {
      var triggerMap := AddOrUpdate(list);
      assert list[..|list|] == list;
      RemoveUnlisted(triggerMap);
    }

    /** The first loop: add new triggers or update existing ones. */
    method AddOrUpdate(list: seq<TimeTrigger>) returns (triggerMap: set<string>)
      requires Conserves()
      modifies this, started
      ensures Conserves() && old(started) <= started && fresh(started - old(started))
      ensures Updated(list, |list|, old(triggers), triggers, triggerMap)
    {
      triggerMap := {};
      for i := 0 to |list|
        invariant Conserves() && old(started) <= started && fresh(started - old(started))
        invariant Updated(list, i, old(triggers), triggers, triggerMap)
      {
        ghost var before := triggers;
        Update(list[i]);
        UpdateOne(list, i, old(triggers), before, triggers, triggerMap);
        triggerMap := triggerMap + {CacheKey(list[i].meta)};
      }
    }

    /** The second loop: process removed triggers. */
    method RemoveUnlisted(triggerMap: set<string>)
      requires Conserves()
      modifies this`triggers, started
      ensures Conserves()
      ensures triggers == map k | k in old(triggers) && k in triggerMap :: old(triggers)[k]
    {
      var rest := triggers.Keys;
      ghost var was := triggers;
      while rest != {}
        invariant Conserves() && rest <= triggers.Keys <= was.Keys
        invariant forall k :: k in was ==> (k in triggers <==> k in rest || k in triggerMap)
        invariant forall k :: k in triggers ==> triggers[k] == was[k]
      {
        var k :| k in rest;
        if k !in triggerMap {
          Drop(k);
        }
        rest := rest - {k};
      }
    }
  }
}
