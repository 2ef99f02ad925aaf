# Card authoring in a terminal flashcard tool

This project models how the flashcard tool creates a new card. It also
proves properties of that model. The tool has two editors for new cards:

- **The "Add card" tab editor** (`NewCard`, module `AddCardLogic`). It holds
  a question field, an answer field and a topic list, plus a focus that says
  which of the three receives keys. A `DepState` records why the card is
  being made: a plain card, a dependency or dependent of one card, or a
  child of a source item. The header shown above the editor comes from the
  `DepState`. Alt-f saves the card as finished and Alt-u as unfinished. The
  topic comes from the topic list. The saved card gets the source id and at
  most one edge. The editor is then rebuilt as a fresh, plain editor.
- **The "add child" popup** (`AddChildWidget`, module `NewChildPopup`). It
  opens for a `Purpose`: a card sourced from a source item, or a card linked
  by dependency or dependent edges to a list of cards. The topic is
  inherited from the source item or from the first listed card. The saved
  card gets an edge to every listed card, in order. The popup then marks
  itself `Exit`.

The database is replaced by `Cards.Lookups`, a set of lookup tables:
- card id → question;
- card id → topic;
- source id → topic;
- source id → title;
- the topic a freshly loaded topic list selects.

`Cards.Connection` pairs these tables with `saved`, the log of cards
written so far. Each editor is a class whose fields are the source's
fields. Its `View()` gives them as a value (`Editor` or `Popup`). A pure
function gives what one key press does: `Step` for the tab editor,
`ChildStep` for the popup. The result is the next value plus the cards
saved, or `Panic` exactly at the unwraps and the indexing listed below.
Panics inside `save_card`, the answer generator or the widgets' own key
handlers are not modelled. Each class's `KeyHandler` is proved equal to
that function. Lemmas about `Run` follow a
whole sequence of key presses. Module `Versions` sets the two editors side
by side.

The text fields, the topic list, the card view and the answer generator
behind Alt-g are collaborators whose code is not part of this model. They
appear only through the interface used here. They are total functions
passed in as parameters: `Handlers.fieldKey`, `Handlers.topicKey`,
`Handlers.gptReply`, and `forward` for the popup.

Each place where the source panics becomes a precondition:
- the `.unwrap()` on the selected topic (`NewCard.SubmitCard`, or
  `Step(...).Next?`);
- the `.unwrap()` on the loaded source title (`PromptDefined`);
- the `.unwrap()` on the source item's topic, and `id[0]` on the list of
  card ids (`TopicResolvable`).

`fetch_card` and `get_topic_of_card` return a value, not an option. So a
missing card id is treated the same way: `PromptDefined` and
`TopicResolvable` require the id to be present.

Some facts of the code the model keeps as they are:
- The tab editor never inherits a topic. It always uses the topic list's
  selection.
- A failed submission panics. There is no error value.
- No focus move leads to `ChooseCard`.
- The dependency header has no colon ("Add new dependency for ").

The two editors word the same edge in opposite ways, and the model keeps
both as written:
- The tab's `NewDependency(id)` gives the card the dependency `[id]` under
  the header "Add new dependency for ".
- The popup's `Dependency(ids)` gives the card the dependencies `ids` under
  the label "Add new dependent".

`Purpose::Source` is declared with a topic-id type in the code. It is used
as a source item id, and it is modelled as one (`IncId`).

## Model

| member | source | states |
|---|---|---|
| `AddCardLogic.NextSelection` | src/tabs/add_card/logic.rs:62-73 | the focus changes exactly when the (focus, direction) pair is one of the five moves in `FocusMoves`, and then it goes to that move's target; every other pair leaves it unchanged; `ChooseCard` is never entered or left |
| `AddCardLogic.RunKeepsFocusOnFields` | src/tabs/add_card/logic.rs:62-73 | from a field focus, no sequence of key presses moves the focus to `ChooseCard` |
| `AddCardLogic.MakePrompt` | src/tabs/add_card/logic.rs:75-101 | the header is "Add new card" for `None`; for `NewDependency(id)` and `NewDependent(id)` it is the matching header followed by the question of card `id`; for `NewChild(id)` it is "Add new child of source: " followed by the source title cut to at most 15 characters (all of it when it fits, exactly 15 characters when it does not) |
| `AddCardLogic.PromptShowsKind` | src/tabs/add_card/logic.rs:75-101 | the kind of `DepState` can be read back from the header alone, whatever the question or title: headers of different kinds never coincide |
| `AddCardLogic.FreshEditor` | src/tabs/add_card/logic.rs:48-60 | a new editor has empty question and answer, focus on the question, the given `DepState` unchanged, the header for that state and the topic a freshly loaded topic list selects |
| `AddCardLogic.BuildCard` | src/tabs/add_card/logic.rs:104-137 | the saved card carries the question and answer unchanged and the selected topic; its source is `incid` exactly for `NewChild(incid)` and 0 otherwise; it is finished iff submitted as completed; `NewDependency(id)` gives exactly the dependency `[id]` and no dependents, `NewDependent(id)` exactly the dependent `[id]` and no dependencies, the other states no edges; it is linked in at most one way |
| `AddCardLogic.LinkRoundTrip` | src/tabs/add_card/logic.rs:107-137 | the `DepState` can be read back from the saved card's source and edges, except `NewChild(0)`, which the sentinel 0 makes look like a plain card |
| `AddCardLogic.Step` | src/tabs/add_card/logic.rs:167-185 | an arrow key only moves the focus, by `NextSelection`; Alt-f and Alt-u save exactly one card, finished or unfinished, and reset the editor to a fresh plain one, and they panic exactly when no topic is selected; Alt-g replaces the answer with the generated reply for the question when a reply source is configured, and does nothing otherwise; any other key keeps the focus, header and state and is handed to the part with the focus (the question field, the answer field or the topic list), which alone changes, while with focus on `ChooseCard` it does nothing |
| `AddCardLogic.RunSavesOnePerSubmit` | src/tabs/add_card/logic.rs:167-185 | over any sequence of key presses that does not panic, the number of saved cards equals the number of Alt-f and Alt-u presses |
| `AddCardLogic.PlainRunSavesUnlinked` | src/tabs/add_card/logic.rs:128-141 | an editor in state `None` stays in `None` and saves only cards with no source and no edges |
| `AddCardLogic.RunLinksOnlyFirstCard` | src/tabs/add_card/logic.rs:139-141 | the `DepState` is used by the first submission only: every later card of a session is unlinked, and after any submission the editor is plain |
| `AddCardLogic.NewCard.constructor` | src/tabs/add_card/logic.rs:48-60 | the constructed editor equals `FreshEditor` for its `DepState` |
| `AddCardLogic.NewCard.Navigate` | src/tabs/add_card/logic.rs:62-73 | only the focus changes, to `NextSelection` of the old focus |
| `AddCardLogic.NewCard.SubmitCard` | src/tabs/add_card/logic.rs:103-142 | exactly one card is appended to the store's log, `BuildCard` of the old texts, selected topic and state; the editor is then `FreshEditor` in state `None` |
| `AddCardLogic.NewCard.KeyHandler` | src/tabs/add_card/logic.rs:167-185 | the new editor and the cards appended to the log are exactly those given by `Step` |
| `Cards.Truncated` | src/tabs/add_card/logic.rs:96 | a title loaded with a length bound is a prefix of the title, at most that long, the whole title when it fits |
| `Cards.Connection.SaveCard` | src/tabs/add_card/logic.rs:139 | saving appends exactly the given card to the log |
| `NewChildPopup.AddPrompt` | src/popups/newchild.rs:45-52 | the label is "Add new sourced card" for `Source`, "Add new dependent" for `Dependency` and "Add new dependency" for `Dependent` |
| `NewChildPopup.PromptIsFixedPerKind` | src/popups/newchild.rs:45-52 | two purposes have the same label iff they are of the same kind |
| `NewChildPopup.ResolveTopic` | src/popups/newchild.rs:55-59 | the topic is the source item's topic for `Source(id)`, and the topic of card `ids[0]` for `Dependent(ids)` and `Dependency(ids)`; this requires the source item's topic to exist, or `ids` to be non-empty with a known first card |
| `NewChildPopup.BuildChildCard` | src/popups/newchild.rs:54-88 | the saved card carries the question and answer unchanged and the inherited topic; its source is `id` exactly for `Source(id)` and 0 otherwise; it is finished iff submitted as finished; `Dependent(cids)` sets the dependents to exactly `cids`, `Dependency(cids)` the dependencies to exactly `cids`, and the other edge list is empty; it is linked in at most one way |
| `NewChildPopup.PurposeRoundTrip` | src/popups/newchild.rs:63-88 | the purpose, with every referenced card in order, can be read back from the saved card |
| `NewChildPopup.FreshPopup` | src/popups/newchild.rs:33-43 | a new popup shows the label of its purpose, keeps the purpose, has an empty card view and is open |
| `NewChildPopup.ChildStep` | src/popups/newchild.rs:132-141 | Alt-f and Alt-u save exactly one card, finished or unfinished, and set the popup to `Exit`, and they panic exactly when the topic lookup fails; every other key goes to the card view, which receives the question, the answer and the popup state and gives back all three, and saves nothing; the purpose and label never change |
| `NewChildPopup.AddChildWidget.constructor` | src/popups/newchild.rs:33-43 | the constructed popup equals `FreshPopup` for its purpose |
| `NewChildPopup.AddChildWidget.SubmitCard` | src/popups/newchild.rs:54-91 | exactly one card is appended to the store's log, `BuildChildCard` of the purpose and texts; the popup's state becomes `Exit` and nothing else changes |
| `NewChildPopup.AddChildWidget.KeyHandler` | src/popups/newchild.rs:132-141 | the new popup and the cards appended to the log are exactly those given by `ChildStep` |
| `Versions.EditorsDifferOnlyInTopic` | src/popups/newchild.rs:55-59 | for a link to one card or to a source item, the two editors save the same card apart from the topic, and the same card exactly when the topic selected in the tab equals the one the popup inherits |

## Left out

- Rendering and layout (`render`, `set_selection`, the split helpers,
  `draw_message`) are not modelled. This is screen geometry with no effect
  on the saved cards. The same goes for the title and manual strings.
- The answer generator behind Alt-g is a network call. It is only an opaque
  function from question to answer, or nothing when no key is configured.
- The text field, topic list and card view key handlers are not part of
  this model. Each is an opaque total function. The card view receives and
  may change the popup's `PopUpState`. The cursor, the screen areas and the
  rest of the `TabData` that `CardView::keyhandler` receives are not
  modelled, and neither is any state of these widgets beyond their text or
  selected id.
- The database is not modelled. `fetch_card`, `load_inc_title`,
  `get_topic_of_inc`, `get_topic_of_card` and `TopicList::new` are lookup
  tables. `load_inc_title` is assumed to return the first at most 15
  characters of the title. `save_card` appends to a log. Saving does not add
  the new card to the lookup tables, because card ids are not modelled.
- The shared `Arc<Mutex<Connection>>` is left out. It is locking plumbing,
  and there is no concurrency in this code.
- The payload of `TextSelect::ChooseCard`, a `FindCardWidget`, is not part of
  this model. The variant is kept without it.
- The contents of the default finished/unfinished review data are not part
  of this model. A card's status is only `Finished` or `Unfinished`.
- `PopUpState` is modelled with only the two values this code uses,
  `Continue` and `Exit`. The popup is assumed to open with an empty card
  view and in `Continue`.
- `NewCard.SubmitCard`: `*self = Self::new(conn, DepState::None)` is
  modelled as resetting every field to the fresh editor's value. The
  identity of the object is not replaced.
- The empty stubs `uprow`, `downrow`, `home` and `end` do nothing and are
  not modelled.
- src/tabs/add_card.rs is not part of this model. It is a wrapper that hands
  submission to the card view.
- src/events/import.rs is not part of this model. It dispatches keys to a
  file import and to tab navigation.
