/**
 * `MemorySystem` (lib/brain/MemorySystem.js): the learning memory kept in the
 * browser's `localStorage` under one key. `load` reads it back (or hands out
 * the shared default object), `save` writes it, and `recordSuccess` counts a
 * cycle, remembers the topic and nudges the click-through baseline upwards.
 * Storage holds the memory's value, so a JSON round trip is exact.
 */
module MemorySystem {

  /** The JSON-visible content of a memory object. */
  datatype MemoryValue = MemoryValue(
    totalCycles: int,
    successfulTopics: seq<string>,
    blacklistedTopics: seq<string>,
    hookWeights: map<string, real>,
    ctrBaseline: real)

  /** DEFAULT_MEMORY as a value. */
  const DefaultValue: MemoryValue := MemoryValue(
    0, [], [], map["negative_frame" := 1.0, "curiosity" := 1.0, "direct_value" := 1.0], 0.05)

  /** `MemorySystem.KEY`. */
  const Key: string := "growth_machine_memory_v1"

  /** The learning rule: one more cycle, the topic appended, and the baseline moved a tenth of the way to a better CTR. */
  function Learn(v: MemoryValue, topic: string, ctr: real): (r: MemoryValue)
    ensures r.totalCycles == v.totalCycles + 1
    ensures r.successfulTopics == v.successfulTopics + [topic]
    ensures r.blacklistedTopics == v.blacklistedTopics && r.hookWeights == v.hookWeights
    ensures ctr <= v.ctrBaseline ==> r.ctrBaseline == v.ctrBaseline
    ensures ctr > v.ctrBaseline ==> v.ctrBaseline < r.ctrBaseline < ctr
  {
    var baseline := if ctr > v.ctrBaseline then v.ctrBaseline * 0.9 + ctr * 0.1 else v.ctrBaseline;
    MemoryValue(v.totalCycles + 1, v.successfulTopics + [topic], v.blacklistedTopics, v.hookWeights, baseline)
  }

  /** A memory object, updated in place by `recordSuccess`. */
  class Memory {
    var totalCycles: int
    var successfulTopics: seq<string>
    var blacklistedTopics: seq<string>
    var hookWeights: map<string, real>
    var ctrBaseline: real

    function Value(): MemoryValue
      reads this
    {
      MemoryValue(totalCycles, successfulTopics, blacklistedTopics, hookWeights, ctrBaseline)
    }

    /** An object with the given content: DEFAULT_MEMORY, or the result of `JSON.parse`. */
    constructor (v: MemoryValue)
      ensures Value() == v
    {
      totalCycles := v.totalCycles;
      successfulTopics := v.successfulTopics;
      blacklistedTopics := v.blacklistedTopics;
      hookWeights := v.hookWeights;
      ctrBaseline := v.ctrBaseline;
    }
  }

  /**
   * The module's state: the one DEFAULT_MEMORY object, whether there is a
   * `window`, and the part of `localStorage` the memory uses.
   */
  class Persistence {
    const defaultMemory: Memory
    const hasWindow: bool
    var storage: map<string, MemoryValue>

    constructor (hasWindow: bool, storage: map<string, MemoryValue>)
      ensures this.hasWindow == hasWindow && this.storage == storage
      ensures fresh(defaultMemory) && defaultMemory.Value() == DefaultValue
    {
      this.hasWindow := hasWindow;
      this.storage := storage;
      defaultMemory := new Memory(DefaultValue);
    }

    /** `load`: with no window or nothing stored, the shared default object itself; otherwise a new object read from storage. */
    method Load() returns (m: Memory)
      ensures !hasWindow || Key !in storage ==> m == defaultMemory
      ensures hasWindow && Key in storage ==> fresh(m) && m.Value() == storage[Key]
    {
      if !hasWindow {
        return defaultMemory;
      }
      if Key in storage {
        m := new Memory(storage[Key]);
      } else {
        m := defaultMemory;
      }
    }

    /** `save`: writes the memory's content under the key; with no window, nothing happens. */
    method Save(m: Memory)
      modifies this
      ensures hasWindow ==> storage == old(storage)[Key := m.Value()]
      ensures !hasWindow ==> storage == old(storage)
    {
      if hasWindow {
        storage := storage[Key := m.Value()];
      }
    }

    /** The content `load` would give. */
    function Loaded(): MemoryValue
      reads this, defaultMemory
    {
      if hasWindow && Key in storage then storage[Key] else defaultMemory.Value()
    }

    /**
     * `recordSuccess`: the loaded object learns from the topic and CTR in place
     * and is saved. When nothing was stored, that object is DEFAULT_MEMORY, which changes too.
     */
    method RecordSuccess(topic: string, ctr: real) returns (m: Memory)
      modifies this, defaultMemory
      ensures m.Value() == Learn(old(Loaded()), topic, ctr)
      ensures hasWindow ==> storage == old(storage)[Key := m.Value()]
      ensures !hasWindow ==> storage == old(storage)
      ensures !hasWindow || Key !in old(storage) ==> m == defaultMemory
      ensures hasWindow && Key in old(storage) ==> defaultMemory.Value() == old(defaultMemory.Value())
    {
      m := Load();
      m.totalCycles := m.totalCycles + 1;
      m.successfulTopics := m.successfulTopics + [topic];
      if ctr > m.ctrBaseline {
        m.ctrBaseline := m.ctrBaseline * 0.9 + ctr * 0.1;
      }
      Save(m);
    }

    /** Saving and then loading gives back the same content, in a new object. */
    method SaveThenLoad(m: Memory) returns (loaded: Memory)
      requires hasWindow
      modifies this
      ensures fresh(loaded) && loaded.Value() == m.Value()
    {
      Save(m);
      loaded := Load();
    }
  }

  /**
   * Without a window nothing is stored, so every `recordSuccess` works on the
   * shared default object: two successes in a row leave it with two cycles.
   */
  method TwoSuccessesWithoutWindow(first: string, second: string, ctr: real) returns (m: Memory)
    ensures m.Value().totalCycles == 2
    ensures m.Value().successfulTopics == [first, second]
  {
    var p := new Persistence(false, map[]);
    var _ := p.RecordSuccess(first, ctr);
    m := p.RecordSuccess(second, ctr);
  }

  /** The baseline never falls, and it only rises towards a better CTR. */
  lemma BaselineMonotone(v: MemoryValue, topic: string, ctr: real)
    ensures Learn(v, topic, ctr).ctrBaseline >= v.ctrBaseline
    ensures Learn(v, topic, ctr).ctrBaseline <= (if ctr > v.ctrBaseline then ctr else v.ctrBaseline)
  {
  }

  /** Recording n successes in a row counts n cycles and appends the topics in order. */
  function LearnAll(v: MemoryValue, topics: seq<string>, ctrs: seq<real>): MemoryValue
    requires |topics| == |ctrs|
  {
    if topics == [] then v
    else Learn(LearnAll(v, topics[..|topics| - 1], ctrs[..|ctrs| - 1]), topics[|topics| - 1], ctrs[|ctrs| - 1])
  }

  lemma {:induction false} LearnAllCounts(v: MemoryValue, topics: seq<string>, ctrs: seq<real>)
    requires |topics| == |ctrs|
    ensures LearnAll(v, topics, ctrs).totalCycles == v.totalCycles + |topics|
    ensures LearnAll(v, topics, ctrs).successfulTopics == v.successfulTopics + topics
    ensures LearnAll(v, topics, ctrs).blacklistedTopics == v.blacklistedTopics
    ensures LearnAll(v, topics, ctrs).hookWeights == v.hookWeights
    ensures LearnAll(v, topics, ctrs).ctrBaseline >= v.ctrBaseline
  {
    if topics != [] {
      var init := topics[..|topics| - 1];
      LearnAllCounts(v, init, ctrs[..|ctrs| - 1]);
      assert topics == init + [topics[|topics| - 1]];
    }
  }
}
