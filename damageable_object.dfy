/**
 * Health bookkeeping of a damageable object (DamageableObject).
 *
 * Health is an integer kept between 0 and MaxHealth. Healing raises it up
 * to the cap, damage lowers it and clamps at 0, and the drop to 0 emits the
 * death event (followed by the score event when the object is worth points).
 * The four C# events are recorded as a trace of emitted events.
 */
module Damageable {

  /** The events an object emits: HealEvent, DamageEvent, DeathEvent and ScoreEvent(points). */
  datatype Event = Healed | Damaged | Died | Scored(points: int)

  /** Health after an operation together with the events it emitted, in order. */
  datatype Outcome = Outcome(health: int, events: seq<Event>)

  /**
   * The reachable health values: within [0, MaxHealth], or stuck at a
   * negative MaxHealth, which no operation can move.
   */
  predicate HealthInRange(maxHealth: int, health: int)
  {
    if maxHealth >= 0 then 0 <= health <= maxHealth else health == maxHealth
  }

  /** HandleDeath: the death event, then the score event only when the object is worth points. */
  function DeathEvents(score: int): (e: seq<Event>)
    ensures |e| >= 1 && e[0] == Died
    ensures Scored(score) in e <==> score > 0
    ensures forall ev :: ev in e ==> ev == Died || ev == Scored(score)
  {
    [Died] + (if score > 0 then [Scored(score)] else [])
  }

  /** Heal(amount) applied to `health`. */
  function HealOutcome(maxHealth: int, health: int, amount: int): (o: Outcome)
    ensures amount <= 0 || health >= maxHealth ==> o == Outcome(health, [])
    ensures amount > 0 && health < maxHealth ==>
      && o.events == [Healed]
      && health < o.health <= maxHealth
      && o.health <= health + amount
      && (o.health == health + amount || o.health == maxHealth)
  {
    if amount <= 0 || health >= maxHealth then Outcome(health, [])
    else
      var h := health + amount;
      Outcome(if h > maxHealth then maxHealth else h, [Healed])
  }

  /** Damage(amount) applied to `health`. */
  function DamageOutcome(maxHealth: int, score: int, health: int, amount: int): (o: Outcome)
    ensures amount <= 0 || health <= 0 || maxHealth == 0 ==> o == Outcome(health, [])
    ensures amount > 0 && health > 0 && maxHealth != 0 ==>
      && 0 <= o.health < health
      && (o.health == 0 <==> amount >= health)
      && (o.health > 0 ==> o.health == health - amount)
      && o.events == [Damaged] + (if o.health == 0 then DeathEvents(score) else [])
  {
    if amount <= 0 || health <= 0 || maxHealth == 0 then Outcome(health, [])
    else
      var h := health - amount;
      if h <= 0 then Outcome(0, [Damaged] + DeathEvents(score))
      else Outcome(h, [Damaged])
  }

  /** OnGameReset: full health and a heal event. */
  function ResetOutcome(maxHealth: int): (o: Outcome)
    ensures HealthInRange(maxHealth, o.health) && o.health == maxHealth && o.events == [Healed]
  {
    Outcome(maxHealth, [Healed])
  }

  /** The operations that change an object's health. */
  datatype Op = Heal(amount: int) | Damage(amount: int) | Reset

  function Apply(maxHealth: int, score: int, health: int, op: Op): Outcome
  {
    match op
    case Heal(a) => HealOutcome(maxHealth, health, a)
    case Damage(a) => DamageOutcome(maxHealth, score, health, a)
    case Reset => ResetOutcome(maxHealth)
  }

  /** A sequence of operations from `health`, concatenating the emitted events. */
  function Run(maxHealth: int, score: int, health: int, ops: seq<Op>): Outcome
    decreases |ops|
  {
    if ops == [] then Outcome(health, [])
    else
      var first := Apply(maxHealth, score, health, ops[0]);
      var rest := Run(maxHealth, score, first.health, ops[1..]);
      Outcome(rest.health, first.events + rest.events)
  }

  /** The number of occurrences of `e` in a trace. */
  function Occurrences(trace: seq<Event>, e: Event): nat
  {
    if trace == [] then 0 else (if trace[0] == e then 1 else 0) + Occurrences(trace[1..], e)
  }

  lemma OccurrencesAppend(a: seq<Event>, b: seq<Event>, e: Event)
    ensures Occurrences(a + b, e) == Occurrences(a, e) + Occurrences(b, e)
    decreases |a|
  {
    if a == [] {
      assert a + b == b;
    } else {
      assert (a + b)[1..] == a[1..] + b;
      OccurrencesAppend(a[1..], b, e);
    }
  }

  /** Every single operation keeps health in range. */
  lemma ApplyKeepsRange(maxHealth: int, score: int, health: int, op: Op)
    requires HealthInRange(maxHealth, health)
    ensures HealthInRange(maxHealth, Apply(maxHealth, score, health, op).health)
  {
    match op
    case Heal(a) =>
    case Damage(a) =>
      if maxHealth < 0 {
        assert health < 0;
      }
    case Reset =>
  }

  /** Starting in range (as Awake leaves it), health stays in range along any sequence of operations. */
  lemma {:induction false} RunKeepsRange(maxHealth: int, score: int, health: int, ops: seq<Op>)
    requires HealthInRange(maxHealth, health)
    ensures HealthInRange(maxHealth, Run(maxHealth, score, health, ops).health)
    decreases |ops|
  {
    if ops != [] {
      ApplyKeepsRange(maxHealth, score, health, ops[0]);
      RunKeepsRange(maxHealth, score, Apply(maxHealth, score, health, ops[0]).health, ops[1..]);
    }
  }

  /** Once health is 0, damage of any amount changes nothing and emits nothing. */
  lemma {:induction false} DamageWhileDeadIsInert(maxHealth: int, score: int, amounts: seq<int>)
    ensures var ops := seq(|amounts|, i requires 0 <= i < |amounts| => Damage(amounts[i]));
      Run(maxHealth, score, 0, ops) == Outcome(0, [])
    decreases |amounts|
  {
    var ops := seq(|amounts|, i requires 0 <= i < |amounts| => Damage(amounts[i]));
    if amounts != [] {
      DamageWhileDeadIsInert(maxHealth, score, amounts[1..]);
      assert ops[1..] == seq(|amounts[1..]|, i requires 0 <= i < |amounts[1..]| => Damage(amounts[1..][i]));
    }
  }

  /**
   * The death event fires once per drop to zero: along any run, the number
   * of death events is at most the number of heal events plus one if the
   * object was alive at the start, since only a heal or a reset revives it.
   */
  lemma {:induction false} DeathOncePerDrop(maxHealth: int, score: int, health: int, ops: seq<Op>)
    ensures var o := Run(maxHealth, score, health, ops);
      Occurrences(o.events, Died) <= Occurrences(o.events, Healed) + (if health > 0 then 1 else 0)
    decreases |ops|
  {
    if ops != [] {
      var first := Apply(maxHealth, score, health, ops[0]);
      var rest := Run(maxHealth, score, first.health, ops[1..]);
      DeathOncePerDrop(maxHealth, score, first.health, ops[1..]);
      OccurrencesAppend(first.events, rest.events, Died);
      OccurrencesAppend(first.events, rest.events, Healed);
      match ops[0]
      case Heal(a) =>
        if first.events == [] {
          assert first.health == health;
        } else {
          assert Occurrences(first.events, Healed) == 1 && Occurrences(first.events, Died) == 0;
        }
      case Damage(a) =>
        if first.events == [] {
          assert first.health == health;
        } else if first.health == 0 {
          var d := DeathEvents(score);
          assert first.events == [Damaged] + d;
          assert first.events[1..] == d;
          assert d[1..] == [] || d[1..] == [Scored(score)];
          assert Occurrences(d[1..], Died) == 0;
          assert Occurrences(d, Died) == 1;
          assert Occurrences(first.events, Died) == 1;
        } else {
          assert first.events == [Damaged];
          assert Occurrences(first.events, Died) == 0;
        }
      case Reset =>
        assert Occurrences(first.events, Healed) == 1 && Occurrences(first.events, Died) == 0;
    }
  }

  class DamageableObject {
    const maxHealth: int
    const score: int
    var health: int
    /** The events emitted so far, in order. */
    var events: seq<Event>

    ghost predicate Valid()
      reads this
    {
      HealthInRange(maxHealth, health)
    }

    /** Awake: health starts at MaxHealth. */
    constructor (maxHealth: int, score: int)
      ensures this.maxHealth == maxHealth && this.score == score
      ensures health == maxHealth && events == []
      ensures Valid()
    {
      this.maxHealth := maxHealth;
      this.score := score;
      health := maxHealth;
      events := [];
    }

    method OnGameReset()
      requires Valid()
      modifies this`health, this`events
      ensures Valid()
      ensures var o := ResetOutcome(maxHealth); health == o.health && events == old(events) + o.events
    {
      health := maxHealth;
      events := events + [Healed];
    }

    method Heal(amount: int)
      requires Valid()
      modifies this`health, this`events
      ensures Valid()
      ensures var o := HealOutcome(maxHealth, old(health), amount); health == o.health && events == old(events) + o.events
    {
      if amount <= 0 || health >= maxHealth {
        return;
      }
      health := health + amount;
      if health > maxHealth {
        health := maxHealth;
      }
      events := events + [Healed];
    }

    method Damage(amount: int)
      requires Valid()
      modifies this`health, this`events
      ensures Valid()
      ensures var o := DamageOutcome(maxHealth, score, old(health), amount); health == o.health && events == old(events) + o.events
    {
      if amount <= 0 || health <= 0 || maxHealth == 0 {
        return;
      }
      health := health - amount;
      events := events + [Damaged];
      if health <= 0 {
        health := 0;
        HandleDeath();
      }
    }

    method HandleDeath()
      modifies this`events
      ensures events == old(events) + DeathEvents(score)
    {
      events := events + [Died];
      if score > 0 {
        events := events + [Scored(score)];
      }
    }

    /** IsAlive: in the reachable states of a non-negative MaxHealth, alive means health is not exhausted. */
    function IsAlive(): (alive: bool)
      reads this
      ensures maxHealth >= 0 && HealthInRange(maxHealth, health) ==> (alive <==> health != 0)
      ensures maxHealth < 0 && HealthInRange(maxHealth, health) ==> !alive
    {
      health > 0
    }
  }

  /** A damage call leaves the object dead exactly when it emits the death event. */
  lemma DeathEventIffKilled(maxHealth: int, score: int, health: int, amount: int)
    requires HealthInRange(maxHealth, health)
    ensures var o := DamageOutcome(maxHealth, score, health, amount);
      (Died in o.events) <==> (health > 0 && o.health <= 0)
  {
    var o := DamageOutcome(maxHealth, score, health, amount);
    if Died in o.events {
      assert o.events != [];
    }
    if health > 0 && o.health <= 0 {
      assert o.events[1] == Died;
    }
  }
}
