/**
 * The counters of the ActorsCount page: a reference counter (`CounterClass`),
 * a value counter (`CounterStruct`) and an actor counter (`CounterActor`),
 * each an integer cell that starts at 0 and is raised by `increment` and
 * lowered by `dec`.
 *
 * The page drives them from detached tasks. Only the executions in which the
 * calls run one at a time are modelled; `Run` gives the value after any such
 * sequence of calls, and the lemmas show that it depends only on how many
 * calls of each kind there were, never on their order.
 */
module Counters {

  /** One call made on a counter. */
  datatype Op = Inc | Dec

  /** The value after the calls `ops`, applied one after another to a counter holding `v`. */
  function Run(v: int, ops: seq<Op>): int
    decreases |ops|
  {
    if ops == [] then v
    else Run(if ops[0] == Inc then v + 1 else v - 1, ops[1..])
  }

  /** The final value is the start plus the number of increments minus the number of decrements. */
  lemma {:induction false} RunCounts(v: int, ops: seq<Op>)
    ensures Run(v, ops) == v + multiset(ops)[Inc] - multiset(ops)[Dec]
    decreases |ops|
  {
    if ops != [] {
      var next := if ops[0] == Inc then v + 1 else v - 1;
      RunCounts(next, ops[1..]);
      assert ops == [ops[0]] + ops[1..];
      assert multiset(ops) == multiset{ops[0]} + multiset(ops[1..]);
    }
  }

  /** Any two orders in which the same calls run one at a time end at the same value. */
  lemma ScheduleIndependent(v: int, a: seq<Op>, b: seq<Op>)
    requires multiset(a) == multiset(b)
    ensures Run(v, a) == Run(v, b)
  {
    RunCounts(v, a);
    RunCounts(v, b);
  }

  /** An increment followed by a decrement restores the previous value, in either order. */
  lemma IncDecRestores(v: int)
    ensures Run(v, [Inc, Dec]) == v && Run(v, [Dec, Inc]) == v
  {
  }

  /** Running `a` and then `b` is running `b` from where `a` left the counter. */
  lemma {:induction false} RunConcat(v: int, a: seq<Op>, b: seq<Op>)
    ensures Run(v, a + b) == Run(Run(v, a), b)
    decreases |a|
  {
    if a == [] {
      assert a + b == b;
    } else {
      var next := if a[0] == Inc then v + 1 else v - 1;
      assert (a + b)[0] == a[0] && (a + b)[1..] == a[1..] + b;
      RunConcat(next, a[1..], b);
    }
  }

  /** `n` passes of a loop body that makes the calls `pass`, in the order they are made. */
  function Repeat(pass: seq<Op>, n: nat): (r: seq<Op>)
    ensures |r| == n * |pass|
  {
    if n == 0 then [] else Repeat(pass, n - 1) + pass
  }

  /** Repeating a balanced pass gives as many increments as decrements. */
  lemma {:induction false} RepeatBalanced(pass: seq<Op>, n: nat)
    requires multiset(pass)[Inc] == multiset(pass)[Dec]
    ensures multiset(Repeat(pass, n))[Inc] == multiset(Repeat(pass, n))[Dec]
  {
    if n > 0 {
      RepeatBalanced(pass, n - 1);
      assert multiset(Repeat(pass, n)) == multiset(Repeat(pass, n - 1)) + multiset(pass);
    }
  }

  /**
   * The calls one pass of the class loop makes: an increment, a task that
   * increments and decrements, a decrement, and a second such task.
   */
  function ClassPass(): (pass: seq<Op>)
    ensures |pass| == 6 && multiset(pass)[Inc] == 3 && multiset(pass)[Dec] == 3
  {
    [Inc] + [Inc, Dec] + [Dec] + [Inc, Dec]
  }

  /**
   * The calls one pass of the actor loop makes: a task that increments, one
   * that increments then decrements, one that decrements, and one more that
   * increments then decrements.
   */
  function ActorPass(): (pass: seq<Op>)
    ensures |pass| == 6 && multiset(pass)[Inc] == 3 && multiset(pass)[Dec] == 3
  {
    [Inc] + [Inc, Dec] + [Dec] + [Inc, Dec]
  }

  /**
   * However the calls of `n` passes of a balanced loop body are interleaved,
   * as long as they run one at a time the counter ends where it started.
   */
  lemma LoopEndsAtStart(v: int, pass: seq<Op>, n: nat, schedule: seq<Op>)
    requires multiset(pass)[Inc] == multiset(pass)[Dec]
    requires multiset(schedule) == multiset(Repeat(pass, n))
    ensures Run(v, schedule) == v
  {
    RepeatBalanced(pass, n);
    RunCounts(v, schedule);
  }

  /** Both loops of the page end at 0 under every one-at-a-time schedule of their calls. */
  lemma PageLoopsEndAtZero(classSchedule: seq<Op>, actorSchedule: seq<Op>)
    requires multiset(classSchedule) == multiset(Repeat(ClassPass(), 100))
    requires multiset(actorSchedule) == multiset(Repeat(ActorPass(), 10))
    ensures Run(0, classSchedule) == 0 && Run(0, actorSchedule) == 0
  {
    LoopEndsAtStart(0, ClassPass(), 100, classSchedule);
    LoopEndsAtStart(0, ActorPass(), 10, actorSchedule);
  }

  class CounterClass {
    var value: int
    /** The calls made on this counter so far, in order. */
    ghost var trace: seq<Op>

    /** The value is what the calls made so far leave a counter that started at 0. */
    ghost predicate Valid()
      reads this
    {
      value == Run(0, trace)
    }

    constructor ()
      ensures value == 0 && trace == [] && Valid()
    {
      value := 0;
      trace := [];
    }

    /** Reads the counter without changing it. */
    method GetVal() returns (v: int)
      ensures v == value
    {
      v := value;
    }

    method Increment()
      requires Valid()
      modifies this
      ensures value == Run(old(value), [Op.Inc])
      ensures trace == old(trace) + [Op.Inc] && Valid()
    {
      RunConcat(0, trace, [Op.Inc]);
      value := value + 1;
      trace := trace + [Op.Inc];
    }

    /** There is no lower bound: the value may become negative. */
    method Dec()
      requires Valid()
      modifies this
      ensures value == Run(old(value), [Op.Dec])
      ensures trace == old(trace) + [Op.Dec] && Valid()
    {
      RunConcat(0, trace, [Op.Dec]);
      value := value - 1;
      trace := trace + [Op.Dec];
    }
  }

  /** A counter with value semantics: every assignment makes an independent copy. */
  datatype CounterStruct = CounterStruct(value: int := 0) {
    /** Reads the counter; a copy reads what the original read when it was made. */
    function GetVal(): (v: int)
      ensures v == value
    {
      value
    }

    /** The copy that a `mutating` increment leaves in the variable. */
    function Increment(): (c: CounterStruct)
      ensures c.GetVal() == Run(GetVal(), [Op.Inc])
    {
      this.(value := value + 1)
    }

    /** The copy that a `mutating` decrement leaves in the variable; no lower bound. */
    function Dec(): (c: CounterStruct)
      ensures c.GetVal() == Run(GetVal(), [Op.Dec])
    {
      this.(value := value - 1)
    }
  }

  class CounterActor {
    var value: int
    /** The calls made on this counter so far, in order. */
    ghost var trace: seq<Op>

    /** The value is what the calls made so far leave a counter that started at 0. */
    ghost predicate Valid()
      reads this
    {
      value == Run(0, trace)
    }

    constructor ()
      ensures value == 0 && trace == [] && Valid()
    {
      value := 0;
      trace := [];
    }

    /** Reads the counter without changing it. */
    method PrintVal() returns (v: int)
      ensures v == value
    {
      v := value;
    }

    method Increment()
      requires Valid()
      modifies this
      ensures value == Run(old(value), [Op.Inc])
      ensures trace == old(trace) + [Op.Inc] && Valid()
    {
      RunConcat(0, trace, [Op.Inc]);
      value := value + 1;
      trace := trace + [Op.Inc];
    }

    /** There is no lower bound: the value may become negative. */
    method Dec()
      requires Valid()
      modifies this
      ensures value == Run(old(value), [Op.Dec])
      ensures trace == old(trace) + [Op.Dec] && Valid()
    {
      RunConcat(0, trace, [Op.Dec]);
      value := value - 1;
      trace := trace + [Op.Dec];
    }
  }

  /**
   * The 100-pass loop over the shared class counter, with each task's calls
   * run where the task is started. The counter's own trace shows that every
   * pass makes the calls of `ClassPass`; that pass is balanced, so the
   * counter reads 0 at the end.
   */
  method CounterClassLoop() returns (v: int)
    ensures v == 0
  {
    var counterClass := new CounterClass();
    for pass := 1 to 101
      invariant counterClass.Valid() && counterClass.trace == Repeat(ClassPass(), pass - 1)
    {
      counterClass.Increment();
      counterClass.Increment();
      counterClass.Dec();
      counterClass.Dec();
      counterClass.Increment();
      counterClass.Dec();
      assert counterClass.trace == Repeat(ClassPass(), pass - 1) + ClassPass();
    }
    LoopEndsAtStart(0, ClassPass(), 100, counterClass.trace);
    v := counterClass.GetVal();
  }

  /**
   * Each task copies the struct counter before changing it: the copy reads
   * 1 after its increment and 0 after its decrement, and the original,
   * never touched, still reads 0.
   */
  method CounterStructCopies() returns (afterIncrement: int, afterDec: int, original: int)
    ensures afterIncrement == 1 && afterDec == 0 && original == 0
  {
    var counterStruct := CounterStruct();
    var counter := counterStruct;
    counter := counter.Increment();
    afterIncrement := counter.GetVal();
    counter := counter.Dec();
    afterDec := counter.GetVal();
    original := counterStruct.GetVal();
  }

  /**
   * An increment through a second name for a class counter is seen through
   * the first; an increment of a copy of a struct counter is not.
   */
  method ReferenceVersusCopy() returns (classOriginal: int, structOriginal: int)
    ensures classOriginal == 1 && structOriginal == 0
  {
    var counterClass := new CounterClass();
    var shared := counterClass;
    shared.Increment();
    classOriginal := counterClass.GetVal();

    var counterStruct := CounterStruct();
    var copy := counterStruct;
    copy := copy.Increment();
    structOriginal := counterStruct.GetVal();
  }

  /**
   * The 10-pass loop over the actor counter, with each task's calls run
   * where the task is started. The counter's own trace shows that every pass
   * makes the calls of `ActorPass`, so the counter reads 0 at the end.
   */
  method CounterActorLoop() returns (v: int)
    ensures v == 0
  {
    var counterActor := new CounterActor();
    for pass := 1 to 11
      invariant counterActor.Valid() && counterActor.trace == Repeat(ActorPass(), pass - 1)
    {
      counterActor.Increment();
      counterActor.Increment();
      counterActor.Dec();
      counterActor.Dec();
      counterActor.Increment();
      counterActor.Dec();
      assert counterActor.trace == Repeat(ActorPass(), pass - 1) + ActorPass();
    }
    LoopEndsAtStart(0, ActorPass(), 10, counterActor.trace);
    v := counterActor.PrintVal();
  }
}
