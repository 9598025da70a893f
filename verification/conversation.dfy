/** The conversation state of `src/app.js`: three per-slot histories, the live session,
    snapshots of it, and the bounded, id-keyed list of saved conversations. */
module Conversation {
  import opened Basics
  import opened Messages

  /** One of the three side-by-side chat windows, `model1` .. `model3`. */
  datatype Slot = Model1 | Model2 | Model3 {
    /** The position of the slot's picker in `[model1Select, model2Select, model3Select]`. */
    function Index(): nat {
      match this
      case Model1 => 0
      case Model2 => 1
      case Model3 => 2
    }
  }

  /** `chatHistory`: one message list per slot. */
  datatype Histories = Histories(model1: seq<Message>, model2: seq<Message>, model3: seq<Message>) {
    function Get(slot: Slot): seq<Message> {
      match slot
      case Model1 => model1
      case Model2 => model2
      case Model3 => model3
    }

    /** The three histories hold the same number of turns. */
    predicate Balanced() {
      |model1| == |model2| == |model3|
    }

    /** Every slot gets the same message appended. */
    function AppendToAll(m: Message): (r: Histories)
      ensures forall slot: Slot :: r.Get(slot) == Get(slot) + [m]
      ensures Balanced() ==> r.Balanced()
    {
      Histories(model1 + [m], model2 + [m], model3 + [m])
    }

    /** Each slot gets its own message appended. */
    function AppendEach(reply: Slot -> Message): (r: Histories)
      ensures forall slot: Slot :: r.Get(slot) == Get(slot) + [reply(slot)]
      ensures Balanced() ==> r.Balanced()
    {
      Histories(model1 + [reply(Model1)], model2 + [reply(Model2)], model3 + [reply(Model3)])
    }
  }

  const EmptyHistories := Histories([], [], [])

  /** `selectedModels`: the model id each slot talks to. */
  datatype Selection = Selection(model1: string, model2: string, model3: string) {
    function Get(slot: Slot): string {
      match slot
      case Model1 => model1
      case Model2 => model2
      case Model3 => model3
    }
  }

  const DefaultSelection := Selection("qwen-turbo", "llama2-7b", "chatglm-turbo")
  const DefaultSystemPrompt := "你是一个有用的AI助手。"
  const DefaultTemperature: real := 0.7
  const DefaultMaxTokens := 2048
  /** What `conversation.maxTokens || 4096` gives a snapshot without a usable value. */
  const FallbackMaxTokens := 4096
  /** At most this many conversations are kept. */
  const Capacity := 20
  const TitleLimit := 30
  const Ellipsis := "..."
  const UntitledTitle := "新对话"

  /** The live, mutable state of one conversation. */
  datatype Session = Session(
    id: string,
    histories: Histories,
    systemMessage: Message,
    temperature: real,
    maxTokens: int,
    selected: Selection)

  /** The state when the page loads, with the freshly generated id. */
  function InitialSession(id: string): (s: Session)
    ensures s.id == id && s.histories == EmptyHistories && s.histories.Balanced()
    ensures s.systemMessage == Message(System, DefaultSystemPrompt)
    ensures s.temperature == DefaultTemperature
    ensures s.maxTokens == DefaultMaxTokens && s.selected == DefaultSelection
  {
    Session(id, EmptyHistories, Message(System, DefaultSystemPrompt), DefaultTemperature, DefaultMaxTokens, DefaultSelection)
  }

  /** A saved conversation. `maxTokens` is `None` for a conversation saved by a version of
      the client that did not store it. */
  datatype Conversation = Conversation(
    id: string,
    title: string,
    date: string,
    histories: Histories,
    systemMessage: Message,
    temperature: real,
    maxTokens: Option<int>,
    selected: Selection)

  // ---------------------------------------------------------------------------
  // Title
  // ---------------------------------------------------------------------------

  /** `history.find(msg => msg.role === 'user')`. */
  function FirstUserMessage(history: seq<Message>): (r: Option<Message>)
    ensures r.None? <==> forall i :: 0 <= i < |history| ==> history[i].role != User
    ensures r.Some? ==> exists i :: FirstUserAt(history, i) && history[i] == r.value
  {
    if |history| == 0 then None
    else if history[0].role == User then
      assert FirstUserAt(history, 0);
      Some(history[0])
    else
      var rest := FirstUserMessage(history[1..]);
      if rest.Some? then
        ghost var i :| FirstUserAt(history[1..], i) && history[1..][i] == rest.value;
        assert FirstUserAt(history, i + 1) by {
          forall j | 0 < j < i + 1 ensures history[j].role != User {
            assert history[j] == history[1..][j - 1];
          }
        }
        rest
      else
        assert forall i :: 0 < i < |history| ==> history[i] == history[1..][i - 1];
        None
  }

  /** `history[i]` is the first user message of `history`. */
  predicate FirstUserAt(history: seq<Message>, i: int) {
    && 0 <= i < |history| && history[i].role == User
    && forall j :: 0 <= j < i ==> history[j].role != User
  }

  /** The title a snapshot gets from a history: the first user message verbatim when it
      has at most 30 characters, its first 30 characters and "..." when longer, and
      "新对话" when the history has no user message. */
  function Title(history: seq<Message>): (title: string)
    ensures (forall i :: 0 <= i < |history| ==> history[i].role != User) ==> title == UntitledTitle
    ensures forall i :: FirstUserAt(history, i) ==>
      && (|history[i].content| <= TitleLimit ==> title == history[i].content)
      && (|history[i].content| > TitleLimit ==> title == history[i].content[..TitleLimit] + Ellipsis)
    ensures |title| <= TitleLimit + |Ellipsis|
  {
    match FirstUserMessage(history)
    case None => UntitledTitle
    case Some(m) =>
      assert forall i, k :: FirstUserAt(history, i) && FirstUserAt(history, k) ==> i == k;
      if |m.content| > TitleLimit then m.content[..TitleLimit] + Ellipsis else m.content
  }

  // ---------------------------------------------------------------------------
  // The saved-conversation list
  // ---------------------------------------------------------------------------

  /** `conversationHistory.findIndex(conv => conv.id === id)`, `None` for -1. */
  function FindIndex(saved: seq<Conversation>, id: string): (r: Option<nat>)
    ensures r.None? <==> forall k :: 0 <= k < |saved| ==> saved[k].id != id
    ensures r.Some? ==>
      && r.value < |saved| && saved[r.value].id == id
      && forall k :: 0 <= k < r.value ==> saved[k].id != id
  {
    if |saved| == 0 then None
    else if saved[0].id == id then Some(0)
    else
      match FindIndex(saved[1..], id)
      case None =>
        assert forall k :: 0 < k < |saved| ==> saved[k] == saved[1..][k - 1];
        None
      case Some(k) =>
        assert forall j :: 0 < j <= k ==> saved[j] == saved[1..][j - 1];
        Some(k + 1)
  }

  predicate UniqueIds(saved: seq<Conversation>) {
    forall i, j :: 0 <= i < j < |saved| ==> saved[i].id != saved[j].id
  }

  /** The list as the client keeps it: bounded and keyed by id. */
  predicate WellFormedIndex(saved: seq<Conversation>) {
    |saved| <= Capacity && UniqueIds(saved)
  }

  /** The upsert of `saveCurrentConversation`: replace the first entry with the same id in
      place, or put the conversation in front; then drop the last entry if the list has
      grown past the capacity. A bounded list stays bounded and holds the conversation
      afterwards, and distinct ids stay distinct. */
  function Upsert(saved: seq<Conversation>, c: Conversation): (r: seq<Conversation>)
    ensures |saved| <= Capacity ==> |r| <= Capacity && c in r
    ensures UniqueIds(saved) ==> UniqueIds(r)
  {
    var found := FindIndex(saved, c.id);
    var updated := if found.Some? then saved[found.value := c] else [c] + saved;
    assert updated[if found.Some? then found.value else 0] == c;
    if |updated| > Capacity then updated[..|updated| - 1] else updated
  }

  /** An id already in a bounded list: its first entry is replaced in place, so the
      length and every other entry stay as they were. */
  lemma UpsertReplaces(saved: seq<Conversation>, c: Conversation, k: nat)
    requires |saved| <= Capacity
    requires k < |saved| && saved[k].id == c.id
    requires forall j :: 0 <= j < k ==> saved[j].id != c.id
    ensures |Upsert(saved, c)| == |saved|
    ensures Upsert(saved, c)[k] == c
    ensures forall j :: 0 <= j < |saved| && j != k ==> Upsert(saved, c)[j] == saved[j]
  {
    assert FindIndex(saved, c.id) == Some(k);
  }

  /** A new id: the conversation goes in front and the rest follows in order; a list that
      was full loses its last (oldest) entry. */
  lemma UpsertPrepends(saved: seq<Conversation>, c: Conversation)
    requires |saved| <= Capacity
    requires forall j :: 0 <= j < |saved| ==> saved[j].id != c.id
    ensures var r := Upsert(saved, c);
      && |r| == (if |saved| < Capacity then |saved| + 1 else Capacity)
      && r[0] == c
      && r[1..] == saved[..|r| - 1]
  {
    assert FindIndex(saved, c.id) == None;
    var r := Upsert(saved, c);
    assert r == ([c] + saved)[..|r|];
  }

  /** After an upsert into a bounded list, looking the id up finds the new conversation. */
  lemma {:induction false} UpsertFindsConversation(saved: seq<Conversation>, c: Conversation)
    requires |saved| <= Capacity
    ensures var r := Upsert(saved, c);
      FindIndex(r, c.id).Some? && r[FindIndex(r, c.id).value] == c
  {
    var r := Upsert(saved, c);
    match FindIndex(saved, c.id)
    case Some(k) =>
      assert r == saved[k := c];
      assert r[k].id == c.id;
      assert forall j :: 0 <= j < k ==> r[j].id != c.id;
      var found := FindIndex(r, c.id);
      assert found.Some?;
      assert !(found.value < k) && !(k < found.value);
    case None =>
      assert r[0] == c;
      assert FindIndex(r, c.id) == Some(0);
  }

  // ---------------------------------------------------------------------------
  // Snapshot and restore
  // ---------------------------------------------------------------------------

  /** The conversation record `saveCurrentConversation` builds from the live state. */
  function Snapshot(s: Session, date: string): (c: Conversation)
    ensures c.id == s.id && c.date == date && c.histories == s.histories
    ensures c.systemMessage == s.systemMessage && c.temperature == s.temperature && c.selected == s.selected
    ensures c.maxTokens == Some(s.maxTokens)
    ensures c.title == Title(s.histories.model1) && |c.title| <= TitleLimit + |Ellipsis|
  {
    Conversation(s.id, Title(s.histories.model1), date, s.histories, s.systemMessage,
      s.temperature, Some(s.maxTokens), s.selected)
  }

  /** `saveCurrentConversation()` on the list: nothing happens while slot `model1` has no
      messages; otherwise the snapshot is upserted. A well-formed list stays well formed,
      and looking up the session's id afterwards finds the snapshot. */
  function Save(s: Session, saved: seq<Conversation>, date: string): (r: seq<Conversation>)
    ensures |s.histories.model1| == 0 ==> r == saved
    ensures |s.histories.model1| > 0 ==> r == Upsert(saved, Snapshot(s, date))
    ensures WellFormedIndex(saved) ==> WellFormedIndex(r)
    ensures |s.histories.model1| > 0 && |saved| <= Capacity ==>
      FindIndex(r, s.id).Some? && r[FindIndex(r, s.id).value] == Snapshot(s, date)
  {
    if |s.histories.model1| == 0 then saved
    else
      var r := Upsert(saved, Snapshot(s, date));
      assert |saved| <= Capacity ==> FindIndex(r, s.id).Some? && r[FindIndex(r, s.id).value] == Snapshot(s, date) by {
        if |saved| <= Capacity { UpsertFindsConversation(saved, Snapshot(s, date)); }
      }
      r
  }

  /** `conversation.maxTokens || 4096`: a missing or zero value falls back to 4096. */
  function RestoredMaxTokens(stored: Option<int>): (m: int)
    ensures stored.Some? && stored.value != 0 ==> m == stored.value
    ensures stored.None? || stored == Some(0) ==> m == FallbackMaxTokens
    ensures m != 0
  {
    match stored
    case Some(v) => if v == 0 then FallbackMaxTokens else v
    case None => FallbackMaxTokens
  }

  /** `loadConversation(conversation)`: the live state is replaced by the snapshot's. */
  function Restore(c: Conversation): (s: Session)
    ensures s.id == c.id && s.histories == c.histories && s.systemMessage == c.systemMessage
    ensures s.temperature == c.temperature && s.selected == c.selected
    ensures c.maxTokens.Some? && c.maxTokens.value != 0 ==> s.maxTokens == c.maxTokens.value
    ensures c.maxTokens.None? || c.maxTokens == Some(0) ==> s.maxTokens == FallbackMaxTokens
    ensures s.maxTokens == RestoredMaxTokens(c.maxTokens)
    ensures s.maxTokens != 0
  {
    Session(c.id, c.histories, c.systemMessage, c.temperature, RestoredMaxTokens(c.maxTokens), c.selected)
  }

  /** Restoring a snapshot gives back the state it was taken from, except that a max-tokens
      value of 0 comes back as 4096. */
  lemma RestoreSnapshot(s: Session, date: string)
    ensures s.maxTokens != 0 ==> Restore(Snapshot(s, date)) == s
    ensures s.maxTokens == 0 ==> Restore(Snapshot(s, date)) == s.(maxTokens := FallbackMaxTokens)
  {
  }

  /** Saving right after restoring a conversation (on the same date) gives it back with
      only the title recomputed from the first slot and max tokens normalised; so a
      conversation the client saved itself comes back unchanged. */
  lemma SnapshotRestore(c: Conversation)
    ensures Snapshot(Restore(c), c.date) == c.(title := Title(c.histories.model1), maxTokens := Some(RestoredMaxTokens(c.maxTokens)))
    ensures c.title == Title(c.histories.model1) && c.maxTokens.Some? && c.maxTokens.value != 0 ==>
      Snapshot(Restore(c), c.date) == c
  {
  }
}
