/** Subscription services and subscribers as objects that point at each other. */
module Subscriptions {
  import opened Basics
  import opened SubscriptionTables
  import opened SubscriptionLinks

  class SubscriptionService {
    var allEventSubscriptions: set<Subscriber>
    var namedEventSubscriptions: map<string, set<Subscriber>>

    ghost function View(): Tables<Subscriber>
      reads this
    {
      Tables(allEventSubscriptions, namedEventSubscriptions)
    }

    constructor ()
      ensures View() == Empty()
    {
      allEventSubscriptions, namedEventSubscriptions := {}, map[];
    }

    /** The loop of `subscribe` and `unsubscribe` over the named table. */
    method EraseNames(subscriber: Subscriber) returns (erased: bool)
      modifies this`namedEventSubscriptions
      ensures namedEventSubscriptions == DropFrom(old(namedEventSubscriptions), subscriber)
      ensures erased <==> NamesOf(old(namedEventSubscriptions), subscriber) != {}
    {
      erased := false;
      var pending := namedEventSubscriptions.Keys;
      ghost var before := namedEventSubscriptions;
      ghost var names := NamesOf(before, subscriber);
      while pending != {}
        invariant pending <= namedEventSubscriptions.Keys <= before.Keys
        invariant forall name :: name in pending ==> namedEventSubscriptions[name] == before[name]
        invariant forall name :: name in before && name !in pending ==>
                    && (name in namedEventSubscriptions <==> before[name] != {subscriber})
                    && (name in namedEventSubscriptions ==> namedEventSubscriptions[name] == before[name] - {subscriber})
        invariant erased <==> names - pending != {}
        decreases pending
      {
        var name :| name in pending;
        pending := pending - {name};
        if subscriber in namedEventSubscriptions[name] {
          erased := true;
          assert name in names - pending;
          if namedEventSubscriptions[name] == {subscriber} {
            namedEventSubscriptions := namedEventSubscriptions - {name};
          } else {
            namedEventSubscriptions := namedEventSubscriptions[name := namedEventSubscriptions[name] - {subscriber}];
          }
        } else {
          assert names - pending == names - (pending + {name});
        }
      }
      assert names - pending == names;
    }

    method Subscribe(subscriber: Subscriber) returns (changed: bool)
      modifies this
      ensures View() == Apply(old(View()), SubscribeAll, subscriber)
      ensures changed == Reports(old(View()), SubscribeAll, subscriber)
    {
      var erased := EraseNames(subscriber);
      changed := subscriber !in allEventSubscriptions;
      allEventSubscriptions := allEventSubscriptions + {subscriber};
    }

    method SubscribeToNames(events: seq<string>, subscriber: Subscriber) returns (changed: bool)
      modifies this`namedEventSubscriptions
      ensures View() == Apply(old(View()), SubscribeNamed(events), subscriber)
      ensures changed == Reports(old(View()), SubscribeNamed(events), subscriber)
    {
      changed := false;
      if subscriber in allEventSubscriptions { return; }
      ghost var before := namedEventSubscriptions;
      for i := 0 to |events|
        invariant AddNames(before, events, subscriber) == AddNames(namedEventSubscriptions, events[i..], subscriber)
        invariant NamesOf(namedEventSubscriptions, subscriber) == NamesOf(before, subscriber) + SetOf(events[..i])
        invariant changed <==> !(SetOf(events[..i]) <= NamesOf(before, subscriber))
      {
        var name := events[i];
        assert events[i..][1..] == events[i + 1..];
        SetOfSnoc(events[..i], name, events[..i + 1]);
        AddNameEffect(namedEventSubscriptions, name, subscriber);
        var known := name in namedEventSubscriptions && subscriber in namedEventSubscriptions[name];
        assert known <==> name in NamesOf(namedEventSubscriptions, subscriber);
        changed := !known || changed;
        namedEventSubscriptions := namedEventSubscriptions[name :=
          (if name in namedEventSubscriptions then namedEventSubscriptions[name] else {}) + {subscriber}];
      }
      assert events[|events|..] == [] && events[..|events|] == events;
    }

    method Unsubscribe(subscriber: Subscriber) returns (changed: bool)
      modifies this
      ensures View() == Apply(old(View()), SubscriptionTables.Unsubscribe, subscriber)
      ensures changed == Reports(old(View()), SubscriptionTables.Unsubscribe, subscriber)
    {
      changed := subscriber in allEventSubscriptions;
      allEventSubscriptions := allEventSubscriptions - {subscriber};
      if !changed {
        assert allEventSubscriptions == old(allEventSubscriptions);
        changed := EraseNames(subscriber);
      }
    }

    method UnsubscribeFromNames(events: seq<string>, subscriber: Subscriber) returns (changed: bool)
      modifies this`namedEventSubscriptions
      ensures View() == Apply(old(View()), UnsubscribeNamed(events), subscriber)
      ensures changed == Reports(old(View()), UnsubscribeNamed(events), subscriber)
    {
      changed := false;
      ghost var before := namedEventSubscriptions;
      for i := 0 to |events|
        invariant RemoveNames(before, events, subscriber) == RemoveNames(namedEventSubscriptions, events[i..], subscriber)
        invariant NamesOf(namedEventSubscriptions, subscriber) == NamesOf(before, subscriber) - SetOf(events[..i])
        invariant changed <==> SetOf(events[..i]) * NamesOf(before, subscriber) != {}
      {
        var name := events[i];
        assert events[i..][1..] == events[i + 1..];
        SetOfSnoc(events[..i], name, events[..i + 1]);
        RemoveNameEffect(namedEventSubscriptions, name, subscriber);
        if name in namedEventSubscriptions && subscriber in namedEventSubscriptions[name] {
          assert name in NamesOf(namedEventSubscriptions, subscriber);
          assert name in SetOf(events[..i + 1]) * NamesOf(before, subscriber);
          changed := true;
          if namedEventSubscriptions[name] == {subscriber} {
            namedEventSubscriptions := namedEventSubscriptions - {name};
          } else {
            namedEventSubscriptions := namedEventSubscriptions[name := namedEventSubscriptions[name] - {subscriber}];
          }
        } else {
          assert name !in NamesOf(namedEventSubscriptions, subscriber);
        }
      }
      assert events[|events|..] == [] && events[..|events|] == events;
    }

    /** `None` stands for the null name that means every event. */
    method SubscribedEvents(subscriber: Subscriber) returns (events: seq<Option<string>>)
      ensures NoDuplicates(events)
      ensures match InterestOf(View(), subscriber)
              case Nothing => events == []
              case Everything => events == [None]
              case Names(names) => forall e :: e in events <==> e.Some? && e.value in names
      ensures subscriber in allEventSubscriptions ==> events == [None]
      ensures subscriber !in allEventSubscriptions ==>
                forall e :: e in events <==> e.Some? && IsNamed(View(), e.value, subscriber)
    {
      if subscriber in allEventSubscriptions { return [None]; }
      events := [];
      var pending := namedEventSubscriptions.Keys;
      ghost var names := NamesOf(namedEventSubscriptions, subscriber);
      while pending != {}
        invariant pending <= namedEventSubscriptions.Keys
        invariant NoDuplicates(events)
        invariant forall e :: e in events <==> e.Some? && e.value in names && e.value !in pending
        decreases pending
      {
        var name :| name in pending;
        if subscriber in namedEventSubscriptions[name] {
          events := events + [Some(name)];
        }
        pending := pending - {name};
      }
      assert names == {} ==> forall e :: e !in events;
      assert (forall e :: e !in events) ==> events == [] by { EmptyIfNoElement(events); }
    }
  }

  lemma EmptyIfNoElement<T>(s: seq<T>)
    ensures (forall e :: e !in s) ==> s == []
  {
    if s != [] {
      assert s[0] in s;
    }
  }

  lemma SetOfSnoc(names: seq<string>, name: string, more: seq<string>)
    requires more == names + [name]
    ensures SetOf(more) == SetOf(names) + {name}
  {
    forall x | x in SetOf(names) + {name} ensures x in SetOf(more) {
      if x in SetOf(names) {
        var i :| 0 <= i < |names| && names[i] == x;
        assert more[i] == x;
      } else {
        assert more[|names|] == x;
      }
    }
  }

  /** The live objects as a world. */
  ghost function Snapshot(services: set<SubscriptionService>, subscribers: set<Subscriber>): World<SubscriptionService, Subscriber>
    reads services, subscribers
  {
    World(map v | v in services :: v.View(), map u | u in subscribers :: u.subscriptions)
  }

  class Subscriber {
    var subscriptions: set<SubscriptionService>

    constructor ()
      ensures subscriptions == {}
    {
      subscriptions := {};
    }

    method SubscribeTo(service: SubscriptionService, ghost services: set<SubscriptionService>, ghost subscribers: set<Subscriber>)
      returns (changed: bool)
      requires this in subscribers && service in services
      modifies this, service
      ensures Snapshot(services, subscribers)
           == AfterMove(old(Snapshot(services, subscribers)), Move.SubscribeTo(this, SubscribeAll, service))
      ensures changed == Reports(old(service.View()), SubscribeAll, this)
    {
      changed := service.Subscribe(this);
      if changed {
        subscriptions := subscriptions + {service};
      }
    }

    method SubscribeToNames(events: seq<string>, service: SubscriptionService,
                            ghost services: set<SubscriptionService>, ghost subscribers: set<Subscriber>)
      returns (changed: bool)
      requires this in subscribers && service in services
      modifies this, service
      ensures Snapshot(services, subscribers)
           == AfterMove(old(Snapshot(services, subscribers)), Move.SubscribeTo(this, SubscribeNamed(events), service))
      ensures changed == Reports(old(service.View()), SubscribeNamed(events), this)
    {
      changed := service.SubscribeToNames(events, this);
      if changed {
        subscriptions := subscriptions + {service};
      }
    }

    method SubscriberRemoved(service: SubscriptionService)
      modifies this
      ensures subscriptions == old(subscriptions) - {service}
    {
      subscriptions := subscriptions - {service};
    }

    method IsSubscribedToNames(events: seq<string>, service: SubscriptionService) returns (r: bool)
      ensures r <==> service in subscriptions && Covers(InterestOf(service.View(), this), events)
      ensures r == (service in subscriptions
                    && (this in service.allEventSubscriptions
                        || ((exists name :: IsNamed(service.View(), name, this))
                            && forall i :: 0 <= i < |events| ==> IsNamed(service.View(), events[i], this))))
    {
      if service !in subscriptions { return false; }
      var subscribed := service.SubscribedEvents(this);
      ghost var interest := InterestOf(service.View(), this);
      assert interest.Names? ==> forall name :: name in interest.names ==> Some(name) in subscribed;
      assert interest.Names? ==> interest.names != {};
      ghost var view := service.View();
      assert this !in service.allEventSubscriptions ==> forall name :: IsNamed(view, name, this) <==> Some(name) in subscribed;
      if subscribed == [] { return false; }
      if subscribed == [None] { return true; }
      assert subscribed[0] in subscribed;
      for i := 0 to |events|
        invariant forall j :: 0 <= j < i ==> Some(events[j]) in subscribed
      {
        if Some(events[i]) !in subscribed {
          assert events[i] in SetOf(events);
          return false;
        }
      }
      return true;
    }

    /** The destructor: every recorded service forgets this subscriber. */
    method Destroy(ghost services: set<SubscriptionService>, ghost subscribers: set<Subscriber>)
      requires this in subscribers && subscriptions <= services
      modifies subscriptions
      ensures Snapshot(services, subscribers - {this})
           == AfterMove(old(Snapshot(services, subscribers)), EndSubscriber(this))
    {
      var pending := subscriptions;
      while pending != {}
        invariant pending <= subscriptions == old(subscriptions)
        invariant forall v :: v in services ==>
                    v.View() == if v in subscriptions && v !in pending
                                then Apply(old(v.View()), SubscriptionTables.Unsubscribe, this) else old(v.View())
        decreases pending
      {
        var service :| service in pending;
        var changed := service.Unsubscribe(this);
        pending := pending - {service};
      }
    }
  }

  /** The destructor of a service: everyone its tables mention forgets it. */
  method DestroyService(service: SubscriptionService, ghost services: set<SubscriptionService>, ghost subscribers: set<Subscriber>)
    requires service in services && Mentioned(service.View()) <= subscribers
    modifies Mentioned(service.View())
    ensures Snapshot(services - {service}, subscribers)
         == AfterMove(old(Snapshot(services, subscribers)), EndService(service))
  {
    var mentioned := service.allEventSubscriptions;
    var names := service.namedEventSubscriptions.Keys;
    while names != {}
      invariant names <= service.namedEventSubscriptions.Keys
      invariant mentioned == service.allEventSubscriptions
                  + set name, u | name in service.namedEventSubscriptions && name !in names
                                  && u in service.namedEventSubscriptions[name] :: u
      decreases names
    {
      var name :| name in names;
      mentioned := mentioned + service.namedEventSubscriptions[name];
      names := names - {name};
    }
    assert mentioned == Mentioned(service.View());
    var pending := mentioned;
    while pending != {}
      invariant pending <= mentioned
      invariant forall u :: u in subscribers ==>
                  u.subscriptions == if u in mentioned && u !in pending then old(u.subscriptions) - {service} else old(u.subscriptions)
      decreases pending
    {
      var subscriber :| subscriber in pending;
      subscriber.SubscriberRemoved(service);
      pending := pending - {subscriber};
    }
  }
}
