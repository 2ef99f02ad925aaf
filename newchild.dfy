/** The "add child" popup: a card view (question and answer) opened for a
    purpose: a card sourced from a reading item, or a dependency or
    dependent of a list of existing cards. The topic of the new card is
    inherited from what the purpose refers to. Submitting saves one card
    and closes the popup. */
module NewChildPopup {
  import opened Cards

  /** Why the card is being created. `Source` carries the id of a source
      item; `Dependency` and `Dependent` the cards to link to. */
  datatype Purpose =
    | Source(inc: IncId)
    | Dependency(ids: seq<CardId>)
    | Dependent(ids: seq<CardId>)

  /** Whether the host keeps the popup open. */
  datatype PopUpState = Continue | Exit

  // ---------------------------------------------------------------------
  // The label shown on top of the popup

  /** The label of each purpose. The wording is crossed over: a
      `Dependency` popup says "dependent" and a `Dependent` popup says
      "dependency". */
  function AddPrompt(purpose: Purpose): (text: string)
    ensures purpose.Source? ==> text == "Add new sourced card"
    ensures purpose.Dependency? ==> text == "Add new dependent"
    ensures purpose.Dependent? ==> text == "Add new dependency"
  {
    match purpose
    case Source(_) => "Add new sourced card"
    case Dependency(_) => "Add new dependent"
    case Dependent(_) => "Add new dependency"
  }

  predicate SameKind(p: Purpose, q: Purpose) {
    (p.Source? && q.Source?) || (p.Dependency? && q.Dependency?) || (p.Dependent? && q.Dependent?)
  }

  /** The label depends on the kind of purpose only, and tells the kinds
      apart. */
  lemma PromptIsFixedPerKind(p: Purpose, q: Purpose)
    ensures AddPrompt(p) == AddPrompt(q) <==> SameKind(p, q)
  {
  }

  // ---------------------------------------------------------------------
  // Topic inheritance and the submitted card

  /** The topic lookup of a submission succeeds: the source item has a
      topic, or the first referenced card exists. */
  predicate TopicResolvable(db: Lookups, purpose: Purpose) {
    match purpose
    case Source(id) => id in db.sourceTopic
    case Dependency(ids) => |ids| > 0 && ids[0] in db.cardTopic
    case Dependent(ids) => |ids| > 0 && ids[0] in db.cardTopic
  }

  /** The inherited topic: the source item's, or the first referenced
      card's. */
  function ResolveTopic(db: Lookups, purpose: Purpose): (topic: TopicId)
    requires TopicResolvable(db, purpose)
    ensures purpose.Source? ==> topic == db.sourceTopic[purpose.inc]
    ensures !purpose.Source? ==> topic == db.cardTopic[purpose.ids[0]]
  {
    match purpose
    case Source(id) => db.sourceTopic[id]
    case Dependent(ids) => db.cardTopic[ids[0]]
    case Dependency(ids) => db.cardTopic[ids[0]]
  }

  /** The card a submission saves: texts as typed, the inherited topic, the
      source item for a sourced card (0 otherwise), the status from the
      submit key, and an edge to every referenced card, in order. */
  function BuildChildCard(db: Lookups, purpose: Purpose, question: string,
                          answer: string, isfinished: bool): (card: CardRecord)
    requires TopicResolvable(db, purpose)
    ensures card.question == question && card.answer == answer
    ensures card.topic == ResolveTopic(db, purpose)
    ensures card.status == Finished <==> isfinished
    ensures card.source == (if purpose.Source? then purpose.inc else 0)
    ensures card.dependents == (if purpose.Dependent? then purpose.ids else [])
    ensures card.dependencies == (if purpose.Dependency? then purpose.ids else [])
    ensures SingleLinkKind(card)
  {
    var topic := ResolveTopic(db, purpose);
    var source := if purpose.Source? then purpose.inc else 0;
    var status := if isfinished then Finished else Unfinished;
    var card := CardRecord(question, answer, topic, source, status, [], []);
    match purpose
    case Dependent(cids) => card.(dependents := cids)
    case Dependency(cids) => card.(dependencies := cids)
    case _ => card
  }

  /** The purpose a saved card was made for, read back from its source and
      edges. */
  function PurposeOf(card: CardRecord): Purpose {
    if card.dependents != [] then Dependent(card.dependents)
    else if card.dependencies != [] then Dependency(card.dependencies)
    else Source(card.source)
  }

  /** A saved card records its purpose in full, with every referenced card
      in order. */
  lemma PurposeRoundTrip(db: Lookups, purpose: Purpose, question: string,
                         answer: string, isfinished: bool)
    requires TopicResolvable(db, purpose)
    ensures PurposeOf(BuildChildCard(db, purpose, question, answer, isfinished)) == purpose
  {
  }

  // ---------------------------------------------------------------------
  // The popup as a value, and one key press as a function of it

  datatype Popup = Popup(
    prompt: string,
    question: string,
    answer: string,
    purpose: Purpose,
    state: PopUpState)

  /** The popup as constructed: the label of its purpose, an empty card
      view, open. */
  function FreshPopup(purpose: Purpose): (w: Popup)
    ensures w.prompt == AddPrompt(purpose) && w.purpose == purpose
    ensures w.question == "" && w.answer == "" && w.state == Continue
  {
    Popup(AddPrompt(purpose), "", "", purpose, Continue)
  }

  /** The card view's key handler, on the question, the answer and the
      popup state it is handed. */
  type ViewKeys = ((string, string, PopUpState), Key) -> (string, string, PopUpState)

  /** What a key press does; a panic when the topic lookup of a submission
      fails. */
  function ChildStep(db: Lookups, forward: ViewKeys,
                     w: Popup, key: Key): (o: Outcome<Popup>)
    ensures o.Panic? <==> IsSubmitKey(key) && !TopicResolvable(db, w.purpose)
    ensures o.Next? ==> o.next.purpose == w.purpose && o.next.prompt == w.prompt
    ensures o.Next? && IsSubmitKey(key) ==>
              o.next == w.(state := Exit) &&
              o.saved == [BuildChildCard(db, w.purpose, w.question, w.answer, key == Alt('f'))]
    ensures !IsSubmitKey(key) ==>
              o.Next? && o.saved == [] &&
              (o.next.question, o.next.answer, o.next.state) ==
                forward((w.question, w.answer, w.state), key)
  {
    if IsSubmitKey(key) then
      if TopicResolvable(db, w.purpose) then
        Next(w.(state := Exit), [BuildChildCard(db, w.purpose, w.question, w.answer, key == Alt('f'))])
      else Panic
    else
      var (q, a, s) := forward((w.question, w.answer, w.state), key);
      Next(w.(question := q, answer := a, state := s), [])
  }

  // ---------------------------------------------------------------------
  // The popup object

  class AddChildWidget {
    var prompt: string
    var question: string
    var answer: string
    var purpose: Purpose
    var state: PopUpState

    function View(): Popup
      reads this
    {
      Popup(prompt, question, answer, purpose, state)
    }

    constructor (purpose: Purpose)
      ensures View() == FreshPopup(purpose)
    {
      prompt := AddPrompt(purpose);
      question := "";
      answer := "";
      this.purpose := purpose;
      state := Continue;
    }

    /** Saves the card and closes the popup. */
    method SubmitCard(conn: Connection, isfinished: bool)
      requires TopicResolvable(conn.db, purpose)
      modifies this, conn
      ensures conn.saved == old(conn.saved) +
                [BuildChildCard(conn.db, old(purpose), old(question), old(answer), isfinished)]
      ensures View() == old(View()).(state := Exit)
    {
      var card := BuildChildCard(conn.db, purpose, question, answer, isfinished);
      conn.SaveCard(card);
      state := Exit;
    }

    method KeyHandler(conn: Connection, forward: ViewKeys, key: Key)
      requires ChildStep(conn.db, forward, View(), key).Next?
      modifies this, conn
      ensures View() == ChildStep(conn.db, forward, old(View()), key).next
      ensures conn.saved == old(conn.saved) + ChildStep(conn.db, forward, old(View()), key).saved
    {
      if key == Alt('f') {
        SubmitCard(conn, true);
      } else if key == Alt('u') {
        SubmitCard(conn, false);
      } else {
        var (q, a, s) := forward((question, answer, state), key);
        question, answer, state := q, a, s;
      }
    }
  }
}
