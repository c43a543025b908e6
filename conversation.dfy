/** A chat conversation (backend/models/conversation.py): its stored row and
    the object a request works on.  `add_message` replaces the message list
    by a copy with one message appended; `to_dict` exposes everything but the
    workflow state.  The clock is a parameter. */
module Conversations {
  import opened Wrappers
  import opened JsonValues

  /** A conversation row: `messages` and `state` are nullable JSON columns. */
  datatype Record = Record(id: string, fundId: Option<string>, phase: Option<string>,
                           messages: Option<seq<Json>>, state: Option<Obj>)

  /** One stored message `{role, content, timestamp}`. */
  function Message(role: string, content: Json, timestamp: string): (r: Json)
    ensures r.JObj? && r.fields.Keys == {"role", "content", "timestamp"}
    ensures r.fields["role"] == JStr(role) && r.fields["content"] == content
    ensures r.fields["timestamp"] == JStr(timestamp)
  {
    JObj(map["role" := JStr(role), "content" := content, "timestamp" := JStr(timestamp)])
  }

  /** The message list after one `add_message`. */
  function Appended(messages: Option<seq<Json>>, m: Json): (r: seq<Json>)
    ensures |r| == |messages.GetOr([])| + 1
    ensures r[..|r| - 1] == messages.GetOr([]) && r[|r| - 1] == m
  {
    messages.GetOr([]) + [m]
  }

  class Conversation {
    var id: string
    var fundId: Option<string>
    var phase: Option<string>
    var messages: Option<seq<Json>>
    var state: Option<Obj>

    /** `Conversation(...)`, or a row loaded from the table. */
    constructor (row: Record)
      ensures Row() == row
    {
      id := row.id;
      fundId := row.fundId;
      phase := row.phase;
      messages := row.messages;
      state := row.state;
    }

    /** The row this object is flushed as. */
    function Row(): Record
      reads this
    {
      Record(id, fundId, phase, messages, state)
    }

    /** `add_message`: a missing list counts as empty; the new list is the old
        one with `{role, content, timestamp}` appended, and nothing else changes. */
    method AddMessage(role: string, content: Json, timestamp: string)
      modifies this
      ensures messages == Some(Appended(old(messages), Message(role, content, timestamp)))
      ensures id == old(id) && fundId == old(fundId) && phase == old(phase) && state == old(state)
    {
      if messages == None {
        messages := Some([]);
      }
      var newMessages := messages.value;
      newMessages := newMessages + [Message(role, content, timestamp)];
      messages := Some(newMessages);
    }

    /** `to_dict`: the timestamps are given as their `isoformat()` or None. */
    function ToDict(createdAt: Json, updatedAt: Json): (r: Obj)
      reads this
      ensures r.Keys == {"id", "fund_id", "phase", "messages", "created_at", "updated_at"}
      ensures "state" !in r
      ensures r["messages"] == (if messages.Some? then JArr(messages.value) else JNull)
      ensures r["phase"] == (if phase.Some? then JStr(phase.value) else JNull)
    {
      map["id" := JStr(id),
          "fund_id" := if fundId.Some? then JStr(fundId.value) else JNull,
          "phase" := if phase.Some? then JStr(phase.value) else JNull,
          "messages" := if messages.Some? then JArr(messages.value) else JNull,
          "created_at" := createdAt,
          "updated_at" := updatedAt]
    }
  }

  /** Two messages added one after the other (a chat turn) extend the list by
      exactly those two, in order, whatever it held before. */
  lemma TwoMessages(messages: Option<seq<Json>>, first: Json, second: Json)
    ensures Appended(Some(Appended(messages, first)), second) == messages.GetOr([]) + [first, second]
  {
  }

  /** The list only grows at its end: every earlier message keeps its place. */
  lemma AppendKeepsPrefix(messages: Option<seq<Json>>, m: Json, k: nat)
    requires k < |messages.GetOr([])|
    ensures Appended(messages, m)[k] == messages.value[k]
  {
  }
}
