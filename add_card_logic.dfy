/** The "Add card" tab editor: a question field, an answer field and a topic
    list, a focus that says which of them receives keys, and the reason the
    card is being made (`DepState`). Submitting saves one card, linked as the
    `DepState` asks, and replaces the editor with a fresh plain one. */
module AddCardLogic {
  import opened Cards

  /** Why the card is being created. */
  datatype DepState =
    | None
    | NewDependent(card: CardId)
    | NewDependency(card: CardId)
    | NewChild(inc: IncId)

  /** Which part of the editor has the focus. `ChooseCard` exists in the
      enumeration, but no focus move of this editor leads to it. */
  datatype TextSelect = Question | Answer | Topic | ChooseCard

  // ---------------------------------------------------------------------
  // Focus navigation

  /** The focus moves of the editor, as (from, direction, to). */
  const FocusMoves: set<(TextSelect, Direction, TextSelect)> := {
    (Question, Right, Topic),
    (Question, Down, Answer),
    (Answer, Up, Question),
    (Answer, Right, Topic),
    (Topic, Left, Question)
  }

  /** The focus after an arrow key: the move listed in FocusMoves for this
      focus and direction, if there is one, and otherwise no change. */
  function NextSelection(sel: TextSelect, dir: Direction): (r: TextSelect)
    ensures r != sel <==> (sel, dir, r) in FocusMoves
    ensures forall t: TextSelect :: (sel, dir, t) in FocusMoves ==> r == t
    ensures r == ChooseCard <==> sel == ChooseCard
  {
    match (sel, dir)
    case (Question, Right) => Topic
    case (Question, Down) => Answer
    case (Answer, Up) => Question
    case (Answer, Right) => Topic
    case (Topic, Left) => Question
    case (_, _) => sel
  }

  // ---------------------------------------------------------------------
  // The header shown above the editor

  const CardHeader := "Add new card"
  const DependencyHeader := "Add new dependency for "
  const DependentHeader := "Add new dependent of: "
  const ChildHeader := "Add new child of source: "
  /** Length bound of a source title in the header. */
  const TitleWidth := 15

  /** The lookups the header needs exist: the referenced card's question,
      or the source item's title. */
  predicate PromptDefined(db: Lookups, state: DepState) {
    match state
    case None => true
    case NewDependency(id) => id in db.cardQuestion
    case NewDependent(id) => id in db.cardQuestion
    case NewChild(id) => id in db.sourceTitle
  }

  function MakePrompt(db: Lookups, state: DepState): (prompt: string)
    requires PromptDefined(db, state)
    ensures state.None? ==> prompt == CardHeader
    ensures state.NewDependency? ==> prompt == DependencyHeader + db.cardQuestion[state.card]
    ensures state.NewDependent? ==> prompt == DependentHeader + db.cardQuestion[state.card]
    ensures state.NewChild? ==>
              |ChildHeader| <= |prompt| <= |ChildHeader| + TitleWidth &&
              prompt[..|ChildHeader|] == ChildHeader &&
              prompt[|ChildHeader|..] <= db.sourceTitle[state.inc] &&
              (|db.sourceTitle[state.inc]| <= TitleWidth ==>
                 prompt[|ChildHeader|..] == db.sourceTitle[state.inc]) &&
              (|db.sourceTitle[state.inc]| > TitleWidth ==>
                 |prompt| == |ChildHeader| + TitleWidth)
  {
    match state
    case None => CardHeader
    case NewDependency(id) => DependencyHeader + db.cardQuestion[id]
    case NewDependent(id) => DependentHeader + db.cardQuestion[id]
    case NewChild(id) => ChildHeader + Truncated(db.sourceTitle[id], TitleWidth)
  }

  /** The four kinds of DepState, without their ids. */
  datatype DepKind = PlainCard | DependencyCard | DependentCard | ChildCard

  function KindOf(state: DepState): DepKind {
    match state
    case None => PlainCard
    case NewDependency(_) => DependencyCard
    case NewDependent(_) => DependentCard
    case NewChild(_) => ChildCard
  }

  /** Reads the kind of card being added back from a header text. */
  function PromptKind(prompt: string): Option<DepKind> {
    if prompt == CardHeader then Some(PlainCard)
    else if DependencyHeader <= prompt then Some(DependencyCard)
    else if DependentHeader <= prompt then Some(DependentCard)
    else if ChildHeader <= prompt then Some(ChildCard)
    else Nothing
  }

  /** Every header names the kind of its DepState: headers of different
      kinds never coincide, whatever the questions and titles are. */
  lemma PromptShowsKind(db: Lookups, state: DepState)
    requires PromptDefined(db, state)
    ensures PromptKind(MakePrompt(db, state)) == Some(KindOf(state))
  {
    var p := MakePrompt(db, state);
    match state
    case None =>
    case NewDependency(id) =>
      assert p[..|DependencyHeader|] == DependencyHeader;
    case NewDependent(id) =>
      assert p[16] == DependentHeader[16] != DependencyHeader[16];
      assert p[..|DependentHeader|] == DependentHeader;
    case NewChild(id) =>
      assert p[8] == ChildHeader[8] != DependencyHeader[8];
      assert p[8] != DependentHeader[8];
  }

  // ---------------------------------------------------------------------
  // Assembling the submitted card

  /** The card a submission saves: texts as typed, the selected topic, the
      source item for a child card (0 otherwise), the status from the
      submit key, and one edge when the card is a dependency or dependent. */
  function BuildCard(question: string, answer: string, topic: TopicId,
                     state: DepState, iscompleted: bool): (card: CardRecord)
    ensures card.question == question && card.answer == answer
    ensures card.topic == topic
    ensures card.status == Finished <==> iscompleted
    ensures card.source == (if state.NewChild? then state.inc else 0)
    ensures state.NewDependency? ==> card.dependencies == [state.card] && card.dependents == []
    ensures state.NewDependent? ==> card.dependents == [state.card] && card.dependencies == []
    ensures state.None? || state.NewChild? ==> card.dependencies == [] && card.dependents == []
    ensures SingleLinkKind(card)
  {
    var source := if state.NewChild? then state.inc else 0;
    var status := if iscompleted then Finished else Unfinished;
    var card := CardRecord(question, answer, topic, source, status, [], []);
    match state
    case NewDependency(id) => card.(dependencies := [id])
    case NewDependent(id) => card.(dependents := [id])
    case _ => card
  }

  /** The DepState a saved card was made under, read back from its source
      and edges. */
  function LinkOf(card: CardRecord): DepState {
    if card.source != 0 then NewChild(card.source)
    else if card.dependencies != [] then NewDependency(card.dependencies[0])
    else if card.dependents != [] then NewDependent(card.dependents[0])
    else None
  }

  /** A saved card records why it was made: the DepState can be read back
      from it, except for a child of source item 0, which the sentinel 0
      makes look like a plain card. */
  lemma LinkRoundTrip(question: string, answer: string, topic: TopicId,
                      state: DepState, iscompleted: bool)
    ensures LinkOf(BuildCard(question, answer, topic, state, iscompleted)) ==
            (if state == NewChild(0) then None else state)
  {
  }

  // ---------------------------------------------------------------------
  // The editor as a value, and one key press as a function of it

  /** The visible state of the editor: header, the two texts, the reason,
      the topic list's selected id and the focus. */
  datatype Editor = Editor(
    prompt: string,
    question: string,
    answer: string,
    state: DepState,
    topic: Option<TopicId>,
    selection: TextSelect)

  /** The editor as constructed: header for the state, empty texts, the
      topic a freshly loaded topic list selects, focus on the question. */
  function FreshEditor(db: Lookups, state: DepState): (e: Editor)
    requires PromptDefined(db, state)
    ensures e.question == "" && e.answer == "" && e.state == state
    ensures e.selection == Question && e.topic == db.initialTopic
    ensures e.prompt == MakePrompt(db, state)
  {
    Editor(MakePrompt(db, state), "", "", state, db.initialTopic, Question)
  }

  /** The collaborators keys are forwarded to: the reply of the answer
      generator for a question (none when no key is configured), the text
      field's key handler and the topic list's key handler. */
  datatype Handlers = Handlers(
    gptReply: Option<string -> string>,
    fieldKey: (string, Key) -> string,
    topicKey: (Option<TopicId>, Key) -> Option<TopicId>)

  function Submit(db: Lookups, e: Editor, iscompleted: bool): Outcome<Editor> {
    match e.topic
    case Nothing => Panic
    case Some(t) =>
      Next(FreshEditor(db, None), [BuildCard(e.question, e.answer, t, e.state, iscompleted)])
  }

  /** A key that is neither an arrow nor a command goes to the part that
      has the focus. */
  function Forward(h: Handlers, e: Editor, key: Key): Editor {
    match e.selection
    case Question => e.(question := h.fieldKey(e.question, key))
    case Answer => e.(answer := h.fieldKey(e.answer, key))
    case Topic => e.(topic := h.topicKey(e.topic, key))
    case ChooseCard => e
  }

  function Step(db: Lookups, h: Handlers, e: Editor, key: Key): (o: Outcome<Editor>)
    // only a submission can fail, and only for want of a topic
    ensures o.Panic? <==> IsSubmitKey(key) && e.topic.Nothing?
    // a submission saves exactly one card and resets the editor
    ensures o.Next? ==> |o.saved| == (if IsSubmitKey(key) then 1 else 0)
    ensures o.Next? && IsSubmitKey(key) ==>
              o.next == FreshEditor(db, None) &&
              o.saved[0] == BuildCard(e.question, e.answer, e.topic.value, e.state, key == Alt('f'))
    // an arrow key changes the focus only
    ensures key.Nav? ==> o == Next(e.(selection := NextSelection(e.selection, key.dir)), [])
    // every other key keeps the focus, the header and the reason, and
    // changes at most the part with the focus (the answer for Alt-g)
    ensures !key.Nav? && !IsSubmitKey(key) ==>
              o.Next? && o.next.selection == e.selection &&
              o.next.prompt == e.prompt && o.next.state == e.state
    ensures !key.Nav? && !IsSubmitKey(key) && key != Alt('g') ==>
              o.next == (match e.selection
                         case Question => e.(question := h.fieldKey(e.question, key))
                         case Answer => e.(answer := h.fieldKey(e.answer, key))
                         case Topic => e.(topic := h.topicKey(e.topic, key))
                         case ChooseCard => e)
    ensures key == Alt('g') ==>
              o.next == (if h.gptReply.Some? then e.(answer := h.gptReply.value(e.question)) else e)
    // the focus never reaches ChooseCard
    ensures o.Next? && e.selection != ChooseCard ==> o.next.selection != ChooseCard
  {
    if key.Nav? then Next(e.(selection := NextSelection(e.selection, key.dir)), [])
    else if key == Alt('f') then Submit(db, e, true)
    else if key == Alt('u') then Submit(db, e, false)
    else if key == Alt('g') then
      Next(if h.gptReply.Some? then e.(answer := h.gptReply.value(e.question)) else e, [])
    else Next(Forward(h, e, key), [])
  }

  // ---------------------------------------------------------------------
  // Editing sessions: a sequence of key presses

  function Run(db: Lookups, h: Handlers, e: Editor, keys: seq<Key>): Outcome<Editor>
    decreases |keys|
  {
    if keys == [] then Next(e, [])
    else
      match Step(db, h, e, keys[0])
      case Panic => Panic
      case Next(e1, saved1) =>
        match Run(db, h, e1, keys[1..])
        case Panic => Panic
        case Next(e2, saved2) => Next(e2, saved1 + saved2)
  }

  function SubmitCount(keys: seq<Key>): nat {
    if keys == [] then 0
    else (if IsSubmitKey(keys[0]) then 1 else 0) + SubmitCount(keys[1..])
  }

  /** A session saves exactly one card per submit key. */
  lemma {:induction false} RunSavesOnePerSubmit(db: Lookups, h: Handlers, e: Editor, keys: seq<Key>)
    ensures Run(db, h, e, keys).Next? ==> |Run(db, h, e, keys).saved| == SubmitCount(keys)
    decreases |keys|
  {
    if keys != [] {
      var o := Step(db, h, e, keys[0]);
      if o.Next? {
        RunSavesOnePerSubmit(db, h, o.next, keys[1..]);
      }
    }
  }

  /** A session that starts as a plain editor saves only unlinked cards and
      stays plain. */
  lemma {:induction false} PlainRunSavesUnlinked(db: Lookups, h: Handlers, e: Editor, keys: seq<Key>)
    requires e.state == None
    ensures Run(db, h, e, keys).Next? ==>
              Run(db, h, e, keys).next.state == None &&
              forall i :: 0 <= i < |Run(db, h, e, keys).saved| ==> Unlinked(Run(db, h, e, keys).saved[i])
    decreases |keys|
  {
    if keys != [] {
      var o := Step(db, h, e, keys[0]);
      if o.Next? {
        PlainRunSavesUnlinked(db, h, o.next, keys[1..]);
      }
    }
  }

  /** The DepState is used by the first submission only: every later card of
      the session is unlinked, and after a submission the editor is plain. */
  lemma {:induction false} RunLinksOnlyFirstCard(db: Lookups, h: Handlers, e: Editor, keys: seq<Key>)
    ensures Run(db, h, e, keys).Next? ==>
              (forall i :: 1 <= i < |Run(db, h, e, keys).saved| ==> Unlinked(Run(db, h, e, keys).saved[i])) &&
              (SubmitCount(keys) > 0 ==> Run(db, h, e, keys).next.state == None)
    decreases |keys|
  {
    if keys != [] {
      var o := Step(db, h, e, keys[0]);
      if o.Next? {
        RunLinksOnlyFirstCard(db, h, o.next, keys[1..]);
        if IsSubmitKey(keys[0]) {
          PlainRunSavesUnlinked(db, h, o.next, keys[1..]);
        } else {
          RunSavesOnePerSubmit(db, h, o.next, keys[1..]);
        }
      }
    }
  }

  /** Starting from a field, no session moves the focus to ChooseCard. */
  lemma {:induction false} RunKeepsFocusOnFields(db: Lookups, h: Handlers, e: Editor, keys: seq<Key>)
    requires e.selection != ChooseCard
    ensures Run(db, h, e, keys).Next? ==> Run(db, h, e, keys).next.selection != ChooseCard
    decreases |keys|
  {
    if keys != [] {
      var o := Step(db, h, e, keys[0]);
      if o.Next? {
        RunKeepsFocusOnFields(db, h, o.next, keys[1..]);
      }
    }
  }

  // ---------------------------------------------------------------------
  // The editor object

  class NewCard {
    var prompt: string
    var question: string
    var answer: string
    var state: DepState
    var topic: Option<TopicId>
    var selection: TextSelect

    function View(): Editor
      reads this
    {
      Editor(prompt, question, answer, state, topic, selection)
    }

    constructor (conn: Connection, state: DepState)
      requires PromptDefined(conn.db, state)
      ensures View() == FreshEditor(conn.db, state)
    {
      prompt := MakePrompt(conn.db, state);
      question := "";
      answer := "";
      this.state := state;
      topic := conn.db.initialTopic;
      selection := Question;
    }

    method Navigate(dir: Direction)
      modifies this
      ensures View() == old(View()).(selection := NextSelection(old(selection), dir))
    {
      selection := NextSelection(selection, dir);
    }

    /** Saves the card and replaces the editor with a fresh plain one. */
    method SubmitCard(conn: Connection, iscompleted: bool)
      requires topic.Some?
      modifies this, conn
      ensures conn.saved == old(conn.saved) +
                [BuildCard(old(question), old(answer), old(topic).value, old(state), iscompleted)]
      ensures View() == FreshEditor(conn.db, None)
    {
      var card := BuildCard(question, answer, topic.value, state, iscompleted);
      conn.SaveCard(card);
      prompt := MakePrompt(conn.db, None);
      question := "";
      answer := "";
      state := None;
      topic := conn.db.initialTopic;
      selection := Question;
    }

    method KeyHandler(conn: Connection, h: Handlers, key: Key)
      requires Step(conn.db, h, View(), key).Next?
      modifies this, conn
      ensures View() == Step(conn.db, h, old(View()), key).next
      ensures conn.saved == old(conn.saved) + Step(conn.db, h, old(View()), key).saved
    {
      if key.Nav? {
        Navigate(key.dir);
      } else if key == Alt('f') {
        SubmitCard(conn, true);
      } else if key == Alt('u') {
        SubmitCard(conn, false);
      } else if key == Alt('g') {
        if h.gptReply.Some? {
          answer := h.gptReply.value(question);
        }
      } else {
        match selection
        case Question => question := h.fieldKey(question, key);
        case Answer => answer := h.fieldKey(answer, key);
        case Topic => topic := h.topicKey(topic, key);
        case ChooseCard =>
      }
    }
  }
}
