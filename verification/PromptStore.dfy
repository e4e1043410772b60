/** learning/prompt_store.py over the agent_prompts table: a cached, versioned store that must behave
    like a plain map from agent to prompt. */
module PromptStore {
  import opened Options

  type Agent = string

  datatype PromptRow = PromptRow(agent: Agent, version: int, prompt: string, active: bool)

  type Rows = seq<PromptRow>

  // ----- The table -----

  /** COALESCE(MAX(version), 0) over the agent's rows */
  function MaxVersion(rows: Rows, agent: Agent): int {
    if rows == [] then 0
    else
      var m, r := MaxVersion(rows[..|rows| - 1], agent), rows[|rows| - 1];
      if r.agent == agent && r.version > m then r.version else m
  }

  /** WHERE agent_name = $1 AND active ORDER BY version DESC LIMIT 1 */
  function BestActive(rows: Rows, agent: Agent): Option<PromptRow> {
    if rows == [] then None
    else
      var best, r := BestActive(rows[..|rows| - 1], agent), rows[|rows| - 1];
      if r.agent == agent && r.active && (best.None? || r.version > best.value.version) then Some(r) else best
  }

  function Deactivate(rows: Rows, agent: Agent): Rows {
    seq(|rows|, i requires 0 <= i < |rows| =>
      if rows[i].agent == agent then rows[i].(active := false) else rows[i])
  }

  /** The transaction of a save: deactivate the agent's rows, insert the next version as active. */
  function SaveRows(rows: Rows, agent: Agent, prompt: string): Rows {
    Deactivate(rows, agent) + [PromptRow(agent, MaxVersion(rows, agent) + 1, prompt, true)]
  }

  function CountOf(rows: Rows, agent: Agent): nat {
    if rows == [] then 0
    else CountOf(rows[..|rows| - 1], agent) + if rows[|rows| - 1].agent == agent then 1 else 0
  }

  /** Each agent's rows carry the versions 1, 2, 3, ... in order of insertion. */
  predicate Numbered(rows: Rows) {
    forall i :: 0 <= i < |rows| ==> rows[i].version == CountOf(rows[..i + 1], rows[i].agent)
  }

  /** Exactly the newest row of each agent is active. */
  predicate OnlyNewestActive(rows: Rows) {
    forall i :: 0 <= i < |rows| ==>
      (rows[i].active <==> rows[i].version == CountOf(rows, rows[i].agent))
  }

  predicate Versioned(rows: Rows) {
    Numbered(rows) && OnlyNewestActive(rows)
  }

  lemma {:induction false} CountMonotone(rows: Rows, k: nat, agent: Agent)
    requires k <= |rows|
    ensures CountOf(rows[..k], agent) <= CountOf(rows, agent)
  {
    if k < |rows| {
      CountMonotone(rows[..|rows| - 1], k, agent);
      assert rows[..|rows| - 1][..k] == rows[..k];
    } else {
      assert rows[..k] == rows;
    }
  }

  lemma {:induction false} MaxIsCount(rows: Rows, agent: Agent)
    requires Numbered(rows)
    ensures MaxVersion(rows, agent) == CountOf(rows, agent)
  {
    if rows != [] {
      var front := rows[..|rows| - 1];
      forall i | 0 <= i < |front| ensures front[i].version == CountOf(front[..i + 1], front[i].agent) {
        assert front[..i + 1] == rows[..i + 1];
      }
      MaxIsCount(front, agent);
      assert rows[..|rows|] == rows;
    }
  }

  lemma {:induction false} CountDeactivate(rows: Rows, agent: Agent, other: Agent)
    ensures CountOf(Deactivate(rows, agent), other) == CountOf(rows, other)
  {
    if rows != [] {
      CountDeactivate(rows[..|rows| - 1], agent, other);
      assert Deactivate(rows, agent)[..|rows| - 1] == Deactivate(rows[..|rows| - 1], agent);
    }
  }

  lemma SaveCount(rows: Rows, agent: Agent, prompt: string, other: Agent)
    ensures CountOf(SaveRows(rows, agent, prompt), other) == CountOf(rows, other) + (if other == agent then 1 else 0)
  {
    var rows' := SaveRows(rows, agent, prompt);
    assert rows'[..|rows'| - 1] == Deactivate(rows, agent);
    CountDeactivate(rows, agent, other);
  }

  lemma {:induction false} SaveVersioned(rows: Rows, agent: Agent, prompt: string)
    requires Versioned(rows)
    ensures Versioned(SaveRows(rows, agent, prompt))
  {
    var rows' := SaveRows(rows, agent, prompt);
    MaxIsCount(rows, agent);
    forall i | 0 <= i < |rows'|
      ensures rows'[i].version == CountOf(rows'[..i + 1], rows'[i].agent)
      ensures rows'[i].active <==> rows'[i].version == CountOf(rows', rows'[i].agent)
    {
      SaveCount(rows, agent, prompt, rows'[i].agent);
      if i < |rows| {
        assert rows'[..i + 1] == Deactivate(rows[..i + 1], agent);
        CountDeactivate(rows[..i + 1], agent, rows[i].agent);
        CountMonotone(rows, i + 1, rows[i].agent);
      } else {
        assert rows'[..i + 1] == rows';
      }
    }
  }

  /** What the query finds after a save: the new prompt for that agent, the old answer for any other. */
  lemma {:induction false} DeactivateBest(rows: Rows, agent: Agent, other: Agent)
    ensures BestActive(Deactivate(rows, agent), other) == if other == agent then None else BestActive(rows, other)
  {
    if rows != [] {
      DeactivateBest(rows[..|rows| - 1], agent, other);
      assert Deactivate(rows, agent)[..|rows| - 1] == Deactivate(rows[..|rows| - 1], agent);
    }
  }

  function ActivePrompt(rows: Rows, agent: Agent): Option<string> {
    match BestActive(rows, agent)
    case None => None
    case Some(r) => Some(r.prompt)
  }

  lemma SaveActive(rows: Rows, agent: Agent, prompt: string, other: Agent)
    ensures ActivePrompt(SaveRows(rows, agent, prompt), other) ==
            if other == agent then Some(prompt) else ActivePrompt(rows, other)
  {
    var rows' := SaveRows(rows, agent, prompt);
    assert rows'[..|rows'| - 1] == Deactivate(rows, agent);
    DeactivateBest(rows, agent, other);
  }

  // ----- The store, one call at a time -----

  datatype Store = Store(rows: Rows, cache: map<Agent, string>)

  /** Cache, then database, then default. An empty prompt counts as none, and a failing query is logged
      and answered with the default. */
  function Get(st: Store, agent: Agent, fallback: string, dbOk: bool): (Store, string) {
    if agent in st.cache then (st, st.cache[agent])
    else if !dbOk then (st, fallback)
    else
      match ActivePrompt(st.rows, agent)
      case Some(p) => if p != "" then (st.(cache := st.cache[agent := p]), p) else (st, fallback)
      case None => (st, fallback)
  }

  /** A failed transaction rolls back and raises before the cache is touched. */
  function Save(st: Store, agent: Agent, prompt: string, dbOk: bool): Store {
    if dbOk then Store(SaveRows(st.rows, agent, prompt), st.cache - {agent}) else st
  }

  datatype Op =
    | GetOp(agent: Agent, fallback: string, dbOk: bool)
    | SaveOp(agent: Agent, prompt: string, dbOk: bool)

  function After(ops: seq<Op>): Store {
    if ops == [] then Store([], map[])
    else
      var st := After(ops[..|ops| - 1]);
      match ops[|ops| - 1]
      case GetOp(agent, fallback, dbOk) => Get(st, agent, fallback, dbOk).0
      case SaveOp(agent, prompt, dbOk) => Save(st, agent, prompt, dbOk)
  }

  /** The plain map: the prompt of each agent's last successful save. */
  function Saved(ops: seq<Op>): map<Agent, string> {
    if ops == [] then map[]
    else
      var m := Saved(ops[..|ops| - 1]);
      match ops[|ops| - 1]
      case GetOp(_, _, _) => m
      case SaveOp(agent, prompt, dbOk) => if dbOk then m[agent := prompt] else m
  }

  function Lookup(m: map<Agent, string>, agent: Agent): Option<string> {
    if agent in m then Some(m[agent]) else None
  }

  ghost predicate Refines(st: Store, m: map<Agent, string>) {
    && Versioned(st.rows)
    && (forall agent :: ActivePrompt(st.rows, agent) == Lookup(m, agent))
    && (forall agent :: agent in st.cache ==> agent in m && st.cache[agent] == m[agent] && m[agent] != "")
  }

  lemma SaveRefines(st: Store, m: map<Agent, string>, agent: Agent, prompt: string)
    requires Refines(st, m)
    ensures Refines(Save(st, agent, prompt, true), m[agent := prompt])
  {
    SaveVersioned(st.rows, agent, prompt);
    forall other ensures ActivePrompt(SaveRows(st.rows, agent, prompt), other) == Lookup(m[agent := prompt], other) {
      SaveActive(st.rows, agent, prompt, other);
      assert ActivePrompt(st.rows, other) == Lookup(m, other);
    }
  }

  /** For every history of gets and saves, failed ones included: versions per agent run 1, 2, 3, ... with
      only the newest active, the table and the cache agree with the map of last successful saves, and no
      cache entry is out of date. */
  lemma {:induction false} StoreRefinesMap(ops: seq<Op>)
    ensures Refines(After(ops), Saved(ops))
  {
    if ops != [] {
      var past := ops[..|ops| - 1];
      StoreRefinesMap(past);
      match ops[|ops| - 1]
      case GetOp(agent, _, _) => assert ActivePrompt(After(past).rows, agent) == Lookup(Saved(past), agent);
      case SaveOp(agent, prompt, dbOk) => if dbOk { SaveRefines(After(past), Saved(past), agent, prompt); }
    }
  }

  /** After any history, a get returns the last successfully saved prompt if that is nonempty and either
      cached or readable, and the default otherwise. */
  lemma GetReturnsLastSaved(ops: seq<Op>, agent: Agent, fallback: string, dbOk: bool)
    ensures var saved := Saved(ops);
            Get(After(ops), agent, fallback, dbOk).1 ==
            if agent in saved && saved[agent] != "" && (dbOk || agent in After(ops).cache) then saved[agent] else fallback
  {
    StoreRefinesMap(ops);
    assert ActivePrompt(After(ops).rows, agent) == Lookup(Saved(ops), agent);
  }

  /** A get that could read the database remembers what it found: the next one answers the same even when the database
      fails. And a get that could not leaves the next one to look again. */
  lemma GetIsRemembered(ops: seq<Op>, agent: Agent, first: string, second: string, dbOk: bool)
    requires agent in Saved(ops) && Saved(ops)[agent] != ""
    ensures Get(After(ops + [GetOp(agent, first, true)]), agent, second, dbOk).1 == Saved(ops)[agent]
    ensures agent !in After(ops).cache ==>
              Get(After(ops + [GetOp(agent, first, false)]), agent, second, true).1 == Saved(ops)[agent]
  {
    AfterOneMore(ops, GetOp(agent, first, true));
    AfterOneMore(ops, GetOp(agent, first, false));
    StoreRefinesMap(ops);
    assert ActivePrompt(After(ops).rows, agent) == Lookup(Saved(ops), agent);
  }

  lemma AfterOneMore(ops: seq<Op>, op: Op)
    ensures op.GetOp? ==> After(ops + [op]) == Get(After(ops), op.agent, op.fallback, op.dbOk).0
    ensures op.SaveOp? ==> After(ops + [op]) == Save(After(ops), op.agent, op.prompt, op.dbOk)
  {
    assert (ops + [op])[..|ops + [op]| - 1] == ops;
  }

  // ----- Gets and saves that overlap -----

  /** A get that has read the table and not yet stored what it read. */
  datatype Reading = Reading(agent: Agent, prompt: string, version: int)

  datatype Shared = Shared(rows: Rows, cache: map<Agent, string>, inFlight: map<nat, Reading>, saves: map<nat, Agent>)

  /** The steps between awaits: a get that missed the cache reads the table and later caches the result; a
      save commits and later drops the cache entry. The cache may have been filled by another call between
      the miss and the read. Identifiers tell concurrent calls apart. */
  datatype Step =
    | Read(id: nat, agent: Agent)
    | Keep(id: nat)
    | Commit(id: nat, agent: Agent, prompt: string)
    | Invalidate(id: nat)

  function Take(st: Shared, step: Step): Shared {
    match step
    case Read(id, agent) =>
      if id in st.inFlight then st
      else
        (match BestActive(st.rows, agent)
         case Some(r) =>
           if r.prompt != "" then st.(inFlight := st.inFlight[id := Reading(agent, r.prompt, r.version)]) else st
         case None => st)
    case Keep(id) =>
      if id !in st.inFlight then st
      else st.(cache := st.cache[st.inFlight[id].agent := st.inFlight[id].prompt], inFlight := st.inFlight - {id})
    case Commit(id, agent, prompt) =>
      if id in st.saves then st
      else st.(rows := SaveRows(st.rows, agent, prompt), saves := st.saves[id := agent])
    case Invalidate(id) =>
      if id !in st.saves then st
      else st.(cache := st.cache - {st.saves[id]}, saves := st.saves - {id})
  }

  function Interleave(steps: seq<Step>): Shared {
    if steps == [] then Shared([], map[], map[], map[])
    else Take(Interleave(steps[..|steps| - 1]), steps[|steps| - 1])
  }

  /** A newer version has been committed since the get read the table. */
  predicate Overtaken(st: Shared, id: nat)
    requires id in st.inFlight
  {
    MaxVersion(st.rows, st.inFlight[id].agent) != st.inFlight[id].version
  }

  /** No step stores the result of an overtaken get. */
  predicate NoOvertaking(steps: seq<Step>) {
    steps == [] ||
    (var past, step := steps[..|steps| - 1], steps[|steps| - 1];
     && NoOvertaking(past)
     && (step.Keep? && step.id in Interleave(past).inFlight ==> !Overtaken(Interleave(past), step.id)))
  }

  predicate SavePending(st: Shared, agent: Agent) {
    exists id :: id in st.saves && st.saves[id] == agent
  }

  // ----- Which cache entries are out of date -----

  /** How a cache entry came about: the version its get had read, and whether that get was overtaken at the
      moment it stored. */
  datatype Entry = Entry(version: int, overtaken: bool)

  function Note(entries: map<Agent, Entry>, st: Shared, step: Step): map<Agent, Entry> {
    match step
    case Read(_, _) => entries
    case Keep(id) =>
      if id !in st.inFlight then entries
      else entries[st.inFlight[id].agent := Entry(st.inFlight[id].version, Overtaken(st, id))]
    case Commit(_, _, _) => entries
    case Invalidate(id) => if id in st.saves then entries - {st.saves[id]} else entries
  }

  function Entries(steps: seq<Step>): map<Agent, Entry> {
    if steps == [] then map[]
    else
      var past := steps[..|steps| - 1];
      Note(Entries(past), Interleave(past), steps[|steps| - 1])
  }

  predicate HasVersion(rows: Rows, agent: Agent, version: int, text: string) {
    exists i :: 0 <= i < |rows| && rows[i].agent == agent && rows[i].version == version && rows[i].prompt == text
  }

  /** `text` is what version `version` of the agent says, so the active prompt if that version is the newest. */
  predicate TextOf(rows: Rows, agent: Agent, version: int, text: string) {
    && HasVersion(rows, agent, version, text)
    && version <= MaxVersion(rows, agent)
    && (version == MaxVersion(rows, agent) ==> ActivePrompt(rows, agent) == Some(text))
  }

  ghost predicate EntryOk(st: Shared, agent: Agent, e: Entry, text: string) {
    && TextOf(st.rows, agent, e.version, text)
    && (e.overtaken ==> e.version < MaxVersion(st.rows, agent))
    && (!e.overtaken && e.version < MaxVersion(st.rows, agent) ==> SavePending(st, agent))
  }

  ghost predicate Recorded(st: Shared, entries: map<Agent, Entry>) {
    && Versioned(st.rows)
    && entries.Keys == st.cache.Keys
    && (forall id :: id in st.inFlight ==>
          TextOf(st.rows, st.inFlight[id].agent, st.inFlight[id].version, st.inFlight[id].prompt))
    && (forall agent :: agent in st.cache ==> EntryOk(st, agent, entries[agent], st.cache[agent]))
  }

  lemma BestIsMax(rows: Rows, agent: Agent)
    requires Versioned(rows)
    ensures var best := BestActive(rows, agent);
            best.Some? ==> TextOf(rows, agent, best.value.version, best.value.prompt) &&
                           best.value.version == MaxVersion(rows, agent)
  {
    if BestActive(rows, agent).Some? {
      MaxIsCount(rows, agent);
      var i := BestIn(rows, agent);
    }
  }

  lemma {:induction false} BestIn(rows: Rows, agent: Agent) returns (i: nat)
    requires BestActive(rows, agent).Some?
    ensures i < |rows| && rows[i] == BestActive(rows, agent).value && rows[i].agent == agent && rows[i].active
  {
    if BestActive(rows, agent) == BestActive(rows[..|rows| - 1], agent) {
      i := BestIn(rows[..|rows| - 1], agent);
    } else {
      i := |rows| - 1;
    }
  }

  lemma SaveMax(rows: Rows, agent: Agent, prompt: string, other: Agent)
    requires Versioned(rows)
    ensures MaxVersion(SaveRows(rows, agent, prompt), other)
         == MaxVersion(rows, other) + if other == agent then 1 else 0
  {
    SaveVersioned(rows, agent, prompt);
    SaveCount(rows, agent, prompt, other);
    MaxIsCount(rows, other);
    MaxIsCount(SaveRows(rows, agent, prompt), other);
  }

  /** A commit leaves every older version what it was. */
  lemma {:induction false} SaveText(rows: Rows, agent: Agent, prompt: string, other: Agent, version: int, text: string)
    requires Versioned(rows) && TextOf(rows, other, version, text)
    ensures TextOf(SaveRows(rows, agent, prompt), other, version, text)
  {
    var rows' := SaveRows(rows, agent, prompt);
    var i :| 0 <= i < |rows| && rows[i].agent == other && rows[i].version == version && rows[i].prompt == text;
    assert rows'[i].agent == other && rows'[i].version == version && rows'[i].prompt == text;
    SaveMax(rows, agent, prompt, other);
    SaveActive(rows, agent, prompt, other);
  }

  lemma PendingGrows(st: Shared, st': Shared, id: nat, agent: Agent)
    requires id !in st.saves && st'.saves.Keys == st.saves.Keys + {id}
    requires forall k :: k in st.saves ==> st'.saves[k] == st.saves[k]
    ensures SavePending(st, agent) ==> SavePending(st', agent)
  {
    if SavePending(st, agent) {
      var k :| k in st.saves && st.saves[k] == agent;
      assert st'.saves[k] == agent;
    }
  }

  lemma {:induction false} CommitEntry(st: Shared, id: nat, saved: Agent, prompt: string, agent: Agent, e: Entry, text: string)
    requires Versioned(st.rows) && id !in st.saves && EntryOk(st, agent, e, text)
    ensures EntryOk(Take(st, Commit(id, saved, prompt)), agent, e, text)
  {
    var st' := Take(st, Commit(id, saved, prompt));
    SaveText(st.rows, saved, prompt, agent, e.version, text);
    SaveMax(st.rows, saved, prompt, agent);
    PendingGrows(st, st', id, agent);
    assert st'.saves[id] == saved;
  }

  lemma {:induction false} CommitRecorded(st: Shared, entries: map<Agent, Entry>, id: nat, agent: Agent, prompt: string)
    requires Recorded(st, entries) && id !in st.saves
    ensures Recorded(Take(st, Commit(id, agent, prompt)), entries)
  {
    var st' := Take(st, Commit(id, agent, prompt));
    SaveVersioned(st.rows, agent, prompt);
    forall k | k in st.inFlight
      ensures TextOf(st'.rows, st.inFlight[k].agent, st.inFlight[k].version, st.inFlight[k].prompt)
    {
      SaveText(st.rows, agent, prompt, st.inFlight[k].agent, st.inFlight[k].version, st.inFlight[k].prompt);
    }
    forall a | a in st.cache ensures EntryOk(st', a, entries[a], st'.cache[a]) {
      CommitEntry(st, id, agent, prompt, a, entries[a], st.cache[a]);
    }
  }

  lemma InvalidatePending(st: Shared, id: nat, agent: Agent)
    requires id in st.saves && agent != st.saves[id] && SavePending(st, agent)
    ensures SavePending(Take(st, Invalidate(id)), agent)
  {
    var k :| k in st.saves && st.saves[k] == agent;
    assert Take(st, Invalidate(id)).saves[k] == agent;
  }

  lemma SamePending(st: Shared, st': Shared, agent: Agent)
    requires st'.saves == st.saves
    ensures SavePending(st', agent) == SavePending(st, agent)
  {
  }

  lemma {:induction false} ReadRecorded(st: Shared, entries: map<Agent, Entry>, id: nat, agent: Agent)
    requires Recorded(st, entries)
    ensures Recorded(Take(st, Read(id, agent)), entries)
  {
    var st' := Take(st, Read(id, agent));
    BestIsMax(st.rows, agent);
    forall k | k in st'.inFlight
      ensures TextOf(st.rows, st'.inFlight[k].agent, st'.inFlight[k].version, st'.inFlight[k].prompt)
    {
      if k in st.inFlight { assert st'.inFlight[k] == st.inFlight[k]; }
    }
    forall a | a in st'.cache ensures EntryOk(st', a, entries[a], st'.cache[a]) { SamePending(st, st', a); }
  }

  lemma {:induction false} KeepRecorded(st: Shared, entries: map<Agent, Entry>, id: nat)
    requires Recorded(st, entries)
    ensures Recorded(Take(st, Keep(id)), Note(entries, st, Keep(id)))
  {
    var st', entries' := Take(st, Keep(id)), Note(entries, st, Keep(id));
    forall a | a in st'.cache ensures EntryOk(st', a, entries'[a], st'.cache[a]) { SamePending(st, st', a); }
  }

  lemma {:induction false} InvalidateRecorded(st: Shared, entries: map<Agent, Entry>, id: nat)
    requires Recorded(st, entries)
    ensures Recorded(Take(st, Invalidate(id)), Note(entries, st, Invalidate(id)))
  {
    if id in st.saves {
      var st', entries' := Take(st, Invalidate(id)), Note(entries, st, Invalidate(id));
      forall a | a in st'.cache ensures EntryOk(st', a, entries'[a], st'.cache[a]) {
        if SavePending(st, a) { InvalidatePending(st, id, a); }
      }
    }
  }

  lemma {:induction false} TakeRecorded(st: Shared, entries: map<Agent, Entry>, step: Step)
    requires Recorded(st, entries)
    ensures Recorded(Take(st, step), Note(entries, st, step))
  {
    match step
    case Read(id, agent) => ReadRecorded(st, entries, id, agent);
    case Keep(id) => KeepRecorded(st, entries, id);
    case Commit(id, agent, prompt) => if id !in st.saves { CommitRecorded(st, entries, id, agent, prompt); }
    case Invalidate(id) => InvalidateRecorded(st, entries, id);
  }

  lemma {:induction false} InterleaveRecorded(steps: seq<Step>)
    ensures Recorded(Interleave(steps), Entries(steps))
  {
    if steps != [] {
      InterleaveRecorded(steps[..|steps| - 1]);
      TakeRecorded(Interleave(steps[..|steps| - 1]), Entries(steps[..|steps| - 1]), steps[|steps| - 1]);
    }
  }

  /** For every interleaving of gets and saves: a cache entry is the text of the version its get had read.
      With no invalidation pending for the agent, that is the newest version if and only if the get was not
      overtaken when it stored; an overtaken one is out of date even then. */
  lemma {:induction false} CacheIsNewestIff(steps: seq<Step>, agent: Agent)
    requires agent in Interleave(steps).cache
    ensures agent in Entries(steps)
    ensures var st := Interleave(steps); var e := Entries(steps)[agent]; var newest := MaxVersion(st.rows, agent);
            && HasVersion(st.rows, agent, e.version, st.cache[agent])
            && (!SavePending(st, agent) ==> (e.version == newest <==> !e.overtaken))
            && (e.overtaken ==> e.version < newest)
            && (e.version == newest ==> ActivePrompt(st.rows, agent) == Some(st.cache[agent]))
  {
    InterleaveRecorded(steps);
  }

  ghost predicate Fresh(st: Shared) {
    && Versioned(st.rows)
    && (forall id :: id in st.inFlight && !Overtaken(st, id) ==>
          ActivePrompt(st.rows, st.inFlight[id].agent) == Some(st.inFlight[id].prompt))
    && (forall id :: id in st.inFlight ==> st.inFlight[id].version <= MaxVersion(st.rows, st.inFlight[id].agent))
    && (forall agent :: agent in st.cache && !SavePending(st, agent) ==>
          ActivePrompt(st.rows, agent) == Some(st.cache[agent]))
  }

  lemma {:induction false} NoneOvertaken(steps: seq<Step>)
    requires NoOvertaking(steps)
    ensures forall agent :: agent in Entries(steps) ==> !Entries(steps)[agent].overtaken
  {
    if steps != [] { NoneOvertaken(steps[..|steps| - 1]); }
  }

  /** So in an interleaving in which no get is overtaken by a commit between its read and its store, every
      cache entry is the newest prompt, except while the save that replaced it still has to invalidate. */
  lemma {:induction false} FreshUnlessOvertaken(steps: seq<Step>)
    requires NoOvertaking(steps)
    ensures Fresh(Interleave(steps))
  {
    InterleaveRecorded(steps);
    NoneOvertaken(steps);
  }

  const OLD_ROW := PromptRow("director", 1, "old", true)
  const NEW_ROW := PromptRow("director", 2, "new", true)

  lemma ExampleRows()
    ensures SaveRows([], "director", "old") == [OLD_ROW]
    ensures BestActive([OLD_ROW], "director") == Some(OLD_ROW)
    ensures SaveRows([OLD_ROW], "director", "new") == [OLD_ROW.(active := false), NEW_ROW]
  {
    assert [OLD_ROW][..0] == [];
  }

  const OVERTAKING_STEPS: seq<Step> :=
    [Commit(0, "director", "old"), Invalidate(0), Read(1, "director"), Commit(2, "director", "new"), Invalidate(2), Keep(1)]

  lemma Steps(k: nat, before: Shared, after: Shared)
    requires k < |OVERTAKING_STEPS| && Interleave(OVERTAKING_STEPS[..k]) == before
    requires after == Take(before, OVERTAKING_STEPS[k])
    ensures Interleave(OVERTAKING_STEPS[..k + 1]) == after
  {
    assert OVERTAKING_STEPS[..k + 1][..k] == OVERTAKING_STEPS[..k];
  }

  lemma FirstSteps()
    ensures Interleave(OVERTAKING_STEPS[..3]) == Shared([OLD_ROW], map[], map[1 := Reading("director", "old", 1)], map[])
  {
    ExampleRows();
    Steps(0, Shared([], map[], map[], map[]), Shared([OLD_ROW], map[], map[], map[0 := "director"]));
    Steps(1, Shared([OLD_ROW], map[], map[], map[0 := "director"]), Shared([OLD_ROW], map[], map[], map[]));
    Steps(2, Shared([OLD_ROW], map[], map[], map[]),
          Shared([OLD_ROW], map[], map[1 := Reading("director", "old", 1)], map[]));
  }

  /** A get that reads version one, and a save that commits and invalidates before the get stores: the
      cache then holds the old prompt with nothing left to drop it. */
  lemma OvertakenGetStaysStale()
    ensures var st := Interleave(OVERTAKING_STEPS);
            && st.cache == map["director" := "old"] && ActivePrompt(st.rows, "director") == Some("new")
            && st.inFlight == map[] && st.saves == map[]
  {
    ExampleRows();
    FirstSteps();
    var r2 := [OLD_ROW.(active := false), NEW_ROW];
    var reading := map[1 := Reading("director", "old", 1)];
    SaveActive([OLD_ROW], "director", "new", "director");
    Steps(3, Shared([OLD_ROW], map[], reading, map[]), Shared(r2, map[], reading, map[2 := "director"]));
    Steps(4, Shared(r2, map[], reading, map[2 := "director"]), Shared(r2, map[], reading, map[]));
    Steps(5, Shared(r2, map[], reading, map[]), Shared(r2, map["director" := "old"], map[], map[]));
    assert OVERTAKING_STEPS[..6] == OVERTAKING_STEPS;
  }

  // ----- The mutable table and store -----

  class PostgresPrompts {
    var rows: Rows

    constructor ()
      ensures rows == []
    {
      rows := [];
    }

    method GetAgentPrompt(agent: Agent) returns (prompt: Option<string>)
      ensures prompt == ActivePrompt(rows, agent)
    {
      var best: Option<PromptRow> := None;
      var i := 0;
      while i < |rows|
        invariant 0 <= i <= |rows|
        invariant best == BestActive(rows[..i], agent)
      {
        assert rows[..i + 1][..i] == rows[..i];
        if rows[i].agent == agent && rows[i].active && (best.None? || rows[i].version > best.value.version) {
          best := Some(rows[i]);
        }
        i := i + 1;
      }
      assert rows[..i] == rows;
      prompt := if best.Some? then Some(best.value.prompt) else None;
    }

    method SaveAgentPrompt(agent: Agent, prompt: string)
      modifies this
      ensures rows == SaveRows(old(rows), agent, prompt)
    {
      var version := MaxVersion(rows, agent) + 1;
      var i := 0;
      while i < |rows|
        invariant 0 <= i <= |rows| == |old(rows)|
        invariant forall k :: 0 <= k < |rows| ==>
          rows[k] == if k < i && old(rows)[k].agent == agent then old(rows)[k].(active := false) else old(rows)[k]
      {
        if rows[i].agent == agent {
          rows := rows[i := rows[i].(active := false)];
        }
        i := i + 1;
      }
      rows := rows + [PromptRow(agent, version, prompt, true)];
    }
  }

  class CachedPrompts {
    const pg: PostgresPrompts
    var cache: map<Agent, string>
    ghost var history: seq<Op>

    ghost function State(): Store
      reads this, pg
    {
      Store(pg.rows, cache)
    }

    ghost predicate Valid()
      reads this, pg
    {
      State() == After(history)
    }

    constructor ()
      ensures Valid() && history == [] && fresh(pg)
    {
      pg := new PostgresPrompts();
      cache, history := map[], [];
    }

    method FetchPrompt(agent: Agent, fallback: string, dbOk: bool) returns (prompt: string)
      requires Valid()
      modifies this
      ensures Valid() && history == old(history) + [GetOp(agent, fallback, dbOk)]
      ensures var saved := Saved(old(history));
              prompt == if agent in saved && saved[agent] != "" && (dbOk || agent in old(cache))
                        then saved[agent] else fallback
    {
      GetReturnsLastSaved(history, agent, fallback, dbOk);
      prompt := fallback;
      if agent in cache {
        prompt := cache[agent];
      } else if dbOk {
        var found := pg.GetAgentPrompt(agent);
        if found.Some? && found.value != "" {
          cache := cache[agent := found.value];
          prompt := found.value;
        }
      }
      history := history + [GetOp(agent, fallback, dbOk)];
      assert history[..|history| - 1] == old(history);
    }

    /** A failed save raises to the caller. */
    method SavePrompt(agent: Agent, prompt: string, dbOk: bool) returns (raised: bool)
      requires Valid()
      modifies this, pg
      ensures Valid() && history == old(history) + [SaveOp(agent, prompt, dbOk)]
      ensures raised == !dbOk
    {
      ghost var before := State();
      raised := !dbOk;
      if dbOk {
        pg.SaveAgentPrompt(agent, prompt);
        DropEntry(agent);
      }
      assert State() == Save(before, agent, prompt, dbOk);
      assert (history + [SaveOp(agent, prompt, dbOk)])[..|history|] == history;
      Record(SaveOp(agent, prompt, dbOk));
    }

    ghost method Record(op: Op)
      requires State() == After(history + [op])
      modifies this`history
      ensures Valid() && history == old(history) + [op]
    {
      history := history + [op];
    }

    method DropEntry(agent: Agent)
      modifies this`cache
      ensures cache == old(cache) - {agent}
    {
      cache := cache - {agent};
    }
  }
}
