/** Listeners of indications at the near-RT RIC: registration per RAN function, the default listeners,
    and delivery (near_ric.c, msg_handler_ric.c). */
module Publish {
  import opened Trees

  datatype Listener = Stdout | Redis | Influx | Other(name: nat)

  type Registration = (nat, Listener)

  /** What was registered for f, in the order of registration. */
  function For(history: seq<Registration>, f: nat): seq<Listener> {
    if history == [] then []
    else
      var r := history[|history| - 1];
      For(history[..|history| - 1], f) + if r.0 == f then [r.1] else []
  }

  predicate Known(history: seq<Registration>, f: nat) {
    exists r <- history :: r.0 == f
  }

  ghost predicate Least(history: seq<Registration>, f: nat) {
    Known(history, f) && forall r <- history :: f <= r.0
  }

  /** Each function that was registered has its listeners in the table. */
  ghost predicate Holds(t: map<nat, seq<Listener>>, history: seq<Registration>) {
    forall f :: (f in t <==> Known(history, f)) && (f in t ==> t[f] == For(history, f))
  }

  lemma ForSnoc(history: seq<Registration>, r: Registration, f: nat)
    ensures For(history + [r], f) == For(history, f) + if r.0 == f then [r.1] else []
    ensures Known(history + [r], f) <==> Known(history, f) || r.0 == f
  {
    assert (history + [r])[..|history|] == history;
    assert r in history + [r];
  }

  lemma {:induction false} UnknownHasNone(history: seq<Registration>, f: nat)
    requires !Known(history, f)
    ensures For(history, f) == []
  {
    if history == [] {
    } else {
      assert history[|history| - 1] in history;
      UnknownHasNone(history[..|history| - 1], f);
    }
  }

  lemma RegisterHolds(t: map<nat, seq<Listener>>, history: seq<Registration>, f: nat, l: Listener)
    requires Holds(t, history)
    ensures Holds(t[f := (if f in t then t[f] else []) + [l]], history + [(f, l)])
  {
    if f !in t {
      UnknownHasNone(history, f);
    }
    hide Known, For;
    forall g {
      ForSnoc(history, (f, l), g);
    }
  }

  // ----- default registration -----

  const DEFAULTS := [Stdout, Redis, Influx]

  function DefaultsFor(f: nat): seq<Registration> {
    [(f, Stdout), (f, Redis), (f, Influx)]
  }

  /** What loading the default listeners registers for a list of service models. */
  function DefaultHistory(sms: seq<nat>): seq<Registration> {
    if sms == [] then [] else DefaultHistory(sms[..|sms| - 1]) + DefaultsFor(sms[|sms| - 1])
  }

  lemma DefaultHistorySnoc(sms: seq<nat>, i: nat)
    requires i < |sms|
    ensures DefaultHistory(sms[..i + 1]) == DefaultHistory(sms[..i]) + [(sms[i], Stdout)] + [(sms[i], Redis)] + [(sms[i], Influx)]
  {
    assert sms[..i + 1][..i] == sms[..i];
  }

  lemma ForDefaults(history: seq<Registration>, g: nat, f: nat)
    ensures For(history + DefaultsFor(g), f) == For(history, f) + if f == g then DEFAULTS else []
    ensures Known(history + DefaultsFor(g), f) <==> Known(history, f) || f == g
  {
    ForSnoc(history, (g, Stdout), f);
    ForSnoc(history + [(g, Stdout)], (g, Redis), f);
    ForSnoc(history + [(g, Stdout)] + [(g, Redis)], (g, Influx), f);
    assert history + DefaultsFor(g) == history + [(g, Stdout)] + [(g, Redis)] + [(g, Influx)];
  }

  /** Whatever models are loaded, each of them gets the three default listeners, in the same order. */
  lemma {:induction false} DefaultsAreEqual(sms: seq<nat>, f: nat)
    requires forall i, j :: 0 <= i < j < |sms| ==> sms[i] != sms[j]
    ensures Known(DefaultHistory(sms), f) <==> f in sms
    ensures For(DefaultHistory(sms), f) == if f in sms then DEFAULTS else []
  {
    if sms == [] {
    } else {
      DefaultsAreEqual(sms[..|sms| - 1], f);
      OneMoreDefault(sms, f);
    }
  }

  lemma OneMoreDefault(sms: seq<nat>, f: nat)
    requires sms != [] && (f in sms[..|sms| - 1] ==> f != sms[|sms| - 1])
    requires Known(DefaultHistory(sms[..|sms| - 1]), f) <==> f in sms[..|sms| - 1]
    requires For(DefaultHistory(sms[..|sms| - 1]), f) == if f in sms[..|sms| - 1] then DEFAULTS else []
    ensures Known(DefaultHistory(sms), f) <==> f in sms
    ensures For(DefaultHistory(sms), f) == if f in sms then DEFAULTS else []
  {
    hide For, Known, DefaultsFor;
    var init, last := sms[..|sms| - 1], sms[|sms| - 1];
    ForDefaults(DefaultHistory(init), last, f);
    assert sms == init + [last];
    assert [] + DEFAULTS == DEFAULTS && DEFAULTS + [] == DEFAULTS;
  }

  // ----- delivery -----

  /** All functions have the same listeners. */
  ghost predicate Uniform(history: seq<Registration>) {
    forall f, g :: Known(history, f) && Known(history, g) ==> For(history, f) == For(history, g)
  }

  /** An indication of f reaches exactly the listeners registered for f, in order. */
  ghost predicate Right(history: seq<Registration>, f: nat, called: seq<Listener>) {
    called == For(history, f)
  }

  /** Since delivery goes by the front function's list, every indication is delivered right exactly
      when all functions have the same listeners. */
  lemma DeliveryIsRightIff(history: seq<Registration>, front: nat)
    requires Least(history, front)
    ensures (forall f :: Known(history, f) ==> Right(history, f, For(history, front))) <==> Uniform(history)
  {
    if forall f :: Known(history, f) ==> Right(history, f, For(history, front)) {
      forall f, g | Known(history, f) && Known(history, g) ensures For(history, f) == For(history, g) {
        assert Right(history, f, For(history, front)) && Right(history, g, For(history, front));
      }
    }
  }

  /** One more listener for any function behind the front one is never called. */
  lemma ExtraListenerIsMissed(sms: seq<nat>, front: nat, f: nat, l: Listener)
    requires forall i, j :: 0 <= i < j < |sms| ==> sms[i] != sms[j]
    requires f in sms && front in sms && front < f && forall g <- sms :: front <= g
    ensures var h := DefaultHistory(sms) + [(f, l)];
            Least(h, front) && Right(h, front, For(h, front)) && !Right(h, f, For(h, front))
  {
    DefaultsAreEqual(sms, f);
    DefaultsAreEqual(sms, front);
    ForSnoc(DefaultHistory(sms), (f, l), f);
    ForSnoc(DefaultHistory(sms), (f, l), front);
    forall r | r in DefaultHistory(sms) + [(f, l)] ensures front <= r.0 {
      if r in DefaultHistory(sms) {
        assert Known(DefaultHistory(sms), r.0);
        DefaultsAreEqual(sms, r.0);
      }
    }
  }

  class PubSub {
    const table: Tree<nat, seq<Listener>>
    ghost var history: seq<Registration>

    ghost predicate Valid()
      reads this, table
    {
      table.Valid() && table.before == NatBefore && Holds(table.model, history)
    }

    constructor ()
      ensures Valid() && history == [] && fresh(table)
    {
      NatOrder();
      table := new Tree(NatBefore);
      history := [];
    }

    /** register_listeners_for_ran_func_id. */
    method Register(f: nat, l: Listener)
      requires Valid()
      modifies this, table
      ensures Valid() && history == old(history) + [(f, l)]
      ensures table.model == old(table.model)[f := (if f in old(table.model) then old(table.model)[f] else []) + [l]]
    {
      RegisterHolds(table.model, history, f, l);
      hide Holds;
      var it := table.Find(f);
      if it == |table.items| || table.items[it].0 != f {
        assert [] + [l] == [l];
        table.Insert(f, [l]);
      } else {
        FoundValue(table.items, table.model, it);
        table.Set(f, table.items[it].1 + [l]);
      }
      history := history + [(f, l)];
    }

    /** load_default_pub_sub_ric. */
    method LoadDefaults(sms: seq<nat>)
      requires Valid() && history == []
      modifies this, table
      ensures Valid() && history == DefaultHistory(sms)
    {
      hide Holds;
      for i := 0 to |sms|
        invariant Valid() && history == DefaultHistory(sms[..i])
      {
        Register(sms[i], Stdout);
        Register(sms[i], Redis);
        Register(sms[i], Influx);
        DefaultHistorySnoc(sms, i);
      }
      assert sms[..|sms|] == sms;
    }

    /** publish_ind_msg: finds the function of the indication, then calls the listeners of the function
        at the front of the table. */
    method PublishIndication(f: nat) returns (called: seq<Listener>)
      requires Valid() && Known(history, f)
      ensures exists front :: Least(history, front) && called == For(history, front)
      ensures exists front <- table.model :: called == table.model[front] && forall g <- table.model :: front <= g
      ensures Uniform(history) ==> Right(history, f, called)
    {
      assert f in table.model;
      var it := table.Find(f);
      assert it != |table.items|;
      FrontIsLeast(table.items, table.model, history);
      var arr := table.items[0].1;
      called := [];
      for i := 0 to |arr|
        invariant called == arr[..i]
      {
        called := called + [arr[i]];
      }
    }

    /** With the default listeners, every indication of a loaded model is delivered right. */
    method PublishDefault(sms: seq<nat>, f: nat) returns (called: seq<Listener>)
      requires Valid() && history == DefaultHistory(sms) && f in sms
      requires forall i, j :: 0 <= i < j < |sms| ==> sms[i] != sms[j]
      ensures called == DEFAULTS && Right(history, f, called)
    {
      forall g { DefaultsAreEqual(sms, g); }
      called := PublishIndication(f);
    }
  }

  lemma FoundValue(t: seq<(nat, seq<Listener>)>, m: map<nat, seq<Listener>>, i: nat)
    requires Lists(NatBefore, t, m) && i < |t|
    ensures t[i].0 in m && t[i].1 == m[t[i].0]
  {
  }

  lemma FrontIsLeast(t: seq<(nat, seq<Listener>)>, m: map<nat, seq<Listener>>, history: seq<Registration>)
    requires Lists(NatBefore, t, m) && Holds(m, history) && t != []
    ensures Least(history, t[0].0) && t[0].1 == For(history, t[0].0)
  {
    forall r | r in history ensures t[0].0 <= r.0 {
      assert Known(history, r.0);
      assert Keyed(t, r.0);
    }
  }
}
