/** The worker's entities (worker/entities.ts): the chat board with its
    messages, the patient records and their seed data. The generic keyed
    store under them is not part of this model; one entity instance is a
    key and the one record stored under it, which `Mutate` replaces by a
    function of itself. */
module Entities {
  import opened Types
  import opened Seqs

  /** A chat together with the messages posted to it. */
  datatype ChatBoardState = ChatBoardState(id: string, title: string, messages: seq<ChatMessage>)

  /** The record a chat board has before anything is stored for it. */
  const ChatBoardInitialState := ChatBoardState("", "", [])

  /** The record a user has before anything is stored for it. */
  const UserInitialState := User("", "")

  /** The record a patient has before anything is stored for it. */
  const PatientInitialState := Patient(
    "", "", 0, Other, "", Stable, "", "", "", PatientVitals(0, "", 0, 0))

  /** A patient record with every text empty and every number zero. */
  predicate IsBlank(p: Patient) {
    p.id == "" && p.name == "" && p.age == 0 && p.condition == "" && p.roomNumber == ""
    && p.admissionDate == "" && p.lastVisit == ""
    && p.vitals == PatientVitals(0, "", 0, 0)
  }

  /** The default records: a chat board with no id, no title and no
      messages; a blank patient of gender Other in Stable condition, which
      no seeded patient is. */
  lemma InitialStates(iso: int -> string, now: int)
    ensures ChatBoardInitialState.id == "" && ChatBoardInitialState.title == ""
    ensures ChatBoardInitialState.messages == []
    ensures UserInitialState.id == "" && UserInitialState.name == ""
    ensures IsBlank(PatientInitialState)
    ensures PatientInitialState.gender == Other && PatientInitialState.status == Stable
    ensures forall p :: p in SeedPatients(iso, now) ==> !IsBlank(p)
  {
    SeedPatientsFacts(iso, now);
    var r := SeedPatients(iso, now);
    forall p | p in r ensures !IsBlank(p) {
      var i :| 0 <= i < |r| && r[i] == p;
    }
  }

  /** The update `sendMessage` hands to `mutate`: the same board with one
      more message at the end. */
  function AppendMessage(s: ChatBoardState, msg: ChatMessage): (r: ChatBoardState)
    ensures r.id == s.id && r.title == s.title
    ensures |r.messages| == |s.messages| + 1
    ensures r.messages[..|s.messages|] == s.messages
    ensures r.messages[|s.messages|] == msg
  {
    s.(messages := s.messages + [msg])
  }

  /** The test that picks the messages of one chat. */
  function PostedTo(chatId: string): ChatMessage -> bool {
    (m: ChatMessage) => m.chatId == chatId
  }

  /** One board per chat, in chat order, holding the messages posted to it. */
  function SeedChatBoards(chats: seq<Chat>, messages: seq<ChatMessage>): (r: seq<ChatBoardState>)
    ensures |r| == |chats|
  {
    seq(|chats|, i requires 0 <= i < |chats| =>
      ChatBoardState(chats[i].id, chats[i].title, Filter(messages, PostedTo(chats[i].id))))
  }

  /** The i-th seeded board is the i-th chat, and its messages are exactly
      the messages whose `chatId` is that chat's id, each as often as it
      was posted, in the order they were posted. */
  lemma SeedChatBoardContents(chats: seq<Chat>, messages: seq<ChatMessage>, i: nat)
    requires i < |chats|
    ensures var b := SeedChatBoards(chats, messages)[i];
      && b.id == chats[i].id && b.title == chats[i].title
      && IsSubsequence(b.messages, messages)
      && (forall m :: m in b.messages <==> m in messages && m.chatId == chats[i].id)
      && (forall m :: multiset(b.messages)[m] == if m.chatId == chats[i].id then multiset(messages)[m] else 0)
  {
    var p := PostedTo(chats[i].id);
    FilterIsSubsequence(messages, p);
    forall m ensures m in Filter(messages, p) <==> m in messages && m.chatId == chats[i].id {
      FilterMembership(messages, p, m);
    }
    forall m ensures multiset(Filter(messages, p))[m] == if m.chatId == chats[i].id then multiset(messages)[m] else 0 {
      FilterMultiplicity(messages, p, m);
    }
  }

  /** The six patients the store is seeded with. Their admission and last
      visit times are offsets from `now` in milliseconds, written out by
      `iso` (which stands for `Date.prototype.toISOString`). */
  function SeedPatients(iso: int -> string, now: int): (r: seq<Patient>)
    ensures |r| == 6
    ensures forall i :: 0 <= i < |r| ==> r[i].status != Discharged
  {
    [ Patient("p-101", "Eleanor Rigby", 72, Female, "Hypertension", Stable, "304-A",
              iso(now - 86400000 * 2), iso(now - 3600000 * 4), PatientVitals(78, "135/85", 98, 368)),
      Patient("p-102", "Desmond Jones", 45, Male, "Arrhythmia", Critical, "ICU-02",
              iso(now - 86400000 * 1), iso(now - 1800000), PatientVitals(115, "150/95", 94, 375)),
      Patient("p-103", "Molly Singer", 28, Female, "Post-op Recovery", Observation, "201-B",
              iso(now - 86400000 * 3), iso(now - 3600000 * 12), PatientVitals(82, "118/75", 99, 370)),
      Patient("p-104", "Jude Lawton", 55, Male, "Type 2 Diabetes", Stable, "105-C",
              iso(now - 86400000 * 5), iso(now - 86400000 * 1), PatientVitals(72, "130/82", 97, 366)),
      Patient("p-105", "Prudence Miller", 64, Female, "Pneumonia", Observation, "205-A",
              iso(now - 86400000 / 2), iso(now - 3600000 * 2), PatientVitals(95, "125/80", 92, 382)),
      Patient("p-106", "Maxwell Edison", 33, Male, "Fractured Tibia", Waiting, "ER-04",
              iso(now), iso(now), PatientVitals(88, "132/84", 99, 371)) ]
  }

  /** The seed holds six records with the ids p-101 to p-106, all distinct
      and none empty; p-102 is Desmond Jones, in critical condition. */
  lemma SeedPatientsFacts(iso: int -> string, now: int)
    ensures var r := SeedPatients(iso, now);
      && |r| == 6
      && (forall i :: 0 <= i < 6 ==> r[i].id == "p-10" + [('1' as int + i) as char])
      && (forall i, j :: 0 <= i < j < 6 ==> r[i].id != r[j].id)
      && (forall i :: 0 <= i < 6 ==> r[i].id != PatientInitialState.id)
      && r[1].name == "Desmond Jones" && r[1].status == Critical
  {
    var r := SeedPatients(iso, now);
    forall i, j | 0 <= i < j < 6 ensures r[i].id != r[j].id {
      assert r[i].id[4] != r[j].id[4];
    }
  }

  /** A chat board: the entity's key and the record stored under it. */
  class ChatBoardEntity {
    const id: string
    var state: ChatBoardState

    constructor (id: string, stored: ChatBoardState)
      ensures this.id == id && state == stored
    {
      this.id := id;
      state := stored;
    }

    /** `getState`: the stored record. */
    method GetState() returns (s: ChatBoardState)
      ensures s == state
    {
      s := state;
    }

    /** `mutate`: replace the stored record by `f` of it and return the result. */
    method Mutate(f: ChatBoardState -> ChatBoardState) returns (next: ChatBoardState)
      modifies this
      ensures state == f(old(state)) && next == state
    {
      state := f(state);
      next := state;
    }

    /** `listMessages`: the messages of the stored board; nothing changes. */
    method ListMessages() returns (messages: seq<ChatMessage>)
      ensures messages == state.messages
    {
      var s := GetState();
      messages := s.messages;
    }

    /** `sendMessage`: builds a message from a fresh `uuid`, this board's key,
        the sender, the text and the clock reading `now`, appends it to the
        stored messages and returns it. */
    method SendMessage(uuid: string, now: int, userId: string, text: string) returns (msg: ChatMessage)
      modifies this
      ensures msg == ChatMessage(uuid, id, userId, text, now)
      ensures msg.chatId == id && msg.userId == userId && msg.text == text
      ensures state.messages == old(state.messages) + [msg]
      ensures state.id == old(state.id) && state.title == old(state.title)
    {
      msg := ChatMessage(uuid, id, userId, text, now);
      var m := msg;
      var _ := Mutate(s => AppendMessage(s, m));
    }
  }

  /** A board with nothing stored lists no messages; after one message is
      sent it lists exactly that message. */
  method SendToEmptyBoard(key: string, uuid: string, now: int, userId: string, text: string)
    returns (before: seq<ChatMessage>, after: seq<ChatMessage>)
    ensures before == []
    ensures after == [ChatMessage(uuid, key, userId, text, now)]
  {
    var board := new ChatBoardEntity(key, ChatBoardInitialState);
    before := board.ListMessages();
    var _ := board.SendMessage(uuid, now, userId, text);
    after := board.ListMessages();
  }
}
