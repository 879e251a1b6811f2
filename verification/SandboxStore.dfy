/** The durable tables of sandboxd/sandboxd/store.py that the controller's protocols rest on. */
module SandboxStore {
  import opened Prelude

  type Answer = string

  datatype SlotKey = SlotKey(scope: string, key: string)

  datatype SlotState = InProgress | SlotSucceeded | SlotFailed

  /** `result_json` of a slot: only the execution id, or a whole result with its id. */
  datatype Doc = IdOnly(exec: string) | Full(exec: string, answer: Answer)

  datatype Slot = Slot(payload: string, state: SlotState, doc: Option<Doc>)

  datatype Status = Running | Cancelling | Succeeded | Failed | TimedOut | Cancelled | Other

  datatype Exec = Exec(sandbox: string, status: Status, result: Option<Answer>, cancelRequested: bool, cleaned: bool)

  datatype Store = Store(slots: map<SlotKey, Slot>, execs: map<string, Exec>)

  /** Claim a slot in one transaction: the first caller proceeds, the others get the row. */
  function BeginIdempotent(st: Store, k: SlotKey, payload: string): (Store, Option<Slot>) {
    if k in st.slots then (st, Some(st.slots[k]))
    else (st.(slots := st.slots[k := Slot(payload, InProgress, None)]), None)
  }

  function CompleteIdempotent(st: Store, k: SlotKey, state: SlotState, doc: Option<Doc>): Store {
    if k in st.slots then st.(slots := st.slots[k := st.slots[k].(state := state, doc := doc)]) else st
  }

  /** An execution id is a primary key; a second insert fails and changes nothing. */
  function CreateExecution(st: Store, e: string, sandbox: string): Store {
    if e in st.execs then st else st.(execs := st.execs[e := Exec(sandbox, Running, None, false, false)])
  }

  predicate Carries(slot: Slot, e: string) {
    slot.doc.Some? && slot.doc.value.exec == e
  }

  /** Store a result; every slot that carries the execution id receives it in the same transaction. */
  function FinishExecution(st: Store, e: string, status: Status, answer: Answer): Store {
    st.(execs := if e in st.execs then st.execs[e := st.execs[e].(status := status, result := Some(answer))] else st.execs,
        slots := map k | k in st.slots ::
          if Carries(st.slots[k], e) then st.slots[k].(state := SlotSucceeded, doc := Some(Full(e, answer)))
          else st.slots[k])
  }

  predicate Live(status: Status) { status.Running? || status.Cancelling? || status.Other? }

  function CancelExecution(st: Store, e: string): (Store, bool) {
    if e in st.execs && Live(st.execs[e].status)
    then (st.(execs := st.execs[e := st.execs[e].(status := Cancelling, cancelRequested := true)]), true)
    else (st, false)
  }

  function MarkCleaned(st: Store, e: string): Store {
    if e in st.execs then st.(execs := st.execs[e := st.execs[e].(cleaned := true)]) else st
  }

  predicate CleanupPending(st: Store, e: string) {
    e in st.execs && st.execs[e].result.Some? && !st.execs[e].cleaned
  }

  /** The store object: two tables, each method one transaction. */
  class SandboxdStore {
    var slots: map<SlotKey, Slot>
    var execs: map<string, Exec>

    function View(): Store
      reads this
    {
      Store(slots, execs)
    }

    constructor ()
      ensures View() == Store(map[], map[])
    {
      slots, execs := map[], map[];
    }

    method Begin(k: SlotKey, payload: string) returns (proceed: bool, existing: Option<Slot>)
      modifies this`slots
      ensures View() == BeginIdempotent(old(View()), k, payload).0
      ensures existing == BeginIdempotent(old(View()), k, payload).1 && (proceed <==> existing == None)
    {
      if k in slots { return false, Some(slots[k]); }
      slots := slots[k := Slot(payload, InProgress, None)];
      return true, None;
    }

    method Complete(k: SlotKey, state: SlotState, doc: Option<Doc>)
      modifies this`slots
      ensures View() == CompleteIdempotent(old(View()), k, state, doc)
    {
      if k in slots {
        slots := slots[k := slots[k].(state := state, doc := doc)];
      }
    }

    method Create(e: string, sandbox: string) returns (inserted: bool)
      modifies this`execs
      ensures View() == CreateExecution(old(View()), e, sandbox)
      ensures inserted <==> e !in old(execs)
    {
      if e in execs { return false; }
      execs := execs[e := Exec(sandbox, Running, None, false, false)];
      return true;
    }

    method Finish(e: string, status: Status, answer: Answer)
      modifies this
      ensures View() == FinishExecution(old(View()), e, status, answer)
    {
      if e in execs {
        execs := execs[e := execs[e].(status := status, result := Some(answer))];
      }
      var todo := slots.Keys;
      while todo != {}
        invariant execs == FinishExecution(old(View()), e, status, answer).execs
        invariant todo <= slots.Keys == old(slots).Keys
        invariant forall k :: k in slots ==>
          slots[k] == if k in todo then old(slots)[k] else FinishExecution(old(View()), e, status, answer).slots[k]
        decreases todo
      {
        var k :| k in todo;
        if Carries(slots[k], e) {
          slots := slots[k := slots[k].(state := SlotSucceeded, doc := Some(Full(e, answer)))];
        }
        todo := todo - {k};
      }
    }

    method Cancel(e: string) returns (marked: bool)
      modifies this`execs
      ensures View() == CancelExecution(old(View()), e).0 && marked == CancelExecution(old(View()), e).1
    {
      if e !in execs || !Live(execs[e].status) { return false; }
      execs := execs[e := execs[e].(status := Cancelling, cancelRequested := true)];
      return true;
    }

    method Cleaned(e: string)
      modifies this`execs
      ensures View() == MarkCleaned(old(View()), e)
    {
      if e in execs {
        execs := execs[e := execs[e].(cleaned := true)];
      }
    }
  }
}
