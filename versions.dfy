/** The two editors side by side. For a link to a single card, or to a
    source item, they save the same card except for its topic: the tab
    editor takes the topic from its topic list, the popup inherits it from
    the card or source item it links to. */
module Versions {
  import opened Cards
  import A = AddCardLogic
  import N = NewChildPopup

  /** The popup purpose that asks for the same link as a tab DepState. */
  function PurposeFor(state: A.DepState): (p: N.Purpose)
    requires !state.None?
    ensures state.NewChild? <==> p.Source?
  {
    match state
    case NewDependency(id) => N.Dependency([id])
    case NewDependent(id) => N.Dependent([id])
    case NewChild(inc) => N.Source(inc)
  }

  /** Same texts, status, source and edges; the cards coincide exactly when
      the topic selected in the tab is the one the popup inherits. */
  lemma EditorsDifferOnlyInTopic(db: Lookups, state: A.DepState, question: string,
                                 answer: string, topic: TopicId, finished: bool)
    requires !state.None? && N.TopicResolvable(db, PurposeFor(state))
    ensures A.BuildCard(question, answer, topic, state, finished) ==
            N.BuildChildCard(db, PurposeFor(state), question, answer, finished).(topic := topic)
    ensures A.BuildCard(question, answer, topic, state, finished) ==
            N.BuildChildCard(db, PurposeFor(state), question, answer, finished)
            <==> topic == N.ResolveTopic(db, PurposeFor(state))
  {
  }
}
