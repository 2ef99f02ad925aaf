/** Vocabulary shared by the two card editors: identifiers, key events, the
    card record handed to the store, and the store itself, seen as a set of
    read-only lookup tables plus the log of cards saved so far. */
module Cards {

  type CardId = nat
  /** Id of a source ("incremental reading") item. */
  type IncId = nat
  type TopicId = nat

  datatype Option<T> = Nothing | Some(value: T)

  datatype Direction = Up | Down | Left | Right

  /** A key event. `Nav` is an arrow key, `Alt` a key pressed with Alt;
      `Char` and `Other` stand for every key the editors only forward. */
  datatype Key = Nav(dir: Direction) | Alt(c: char) | Char(c: char) | Other(code: nat)

  /** The two submit keys: Alt-f (finished) and Alt-u (unfinished). */
  predicate IsSubmitKey(key: Key) {
    key == Alt('f') || key == Alt('u')
  }

  /** Finished cards carry default review data, unfinished ones none. */
  datatype Status = Finished | Unfinished

  /** A card as assembled by an editor and written to the store. A source of
      0 means "no source item". */
  datatype CardRecord = CardRecord(
    question: string,
    answer: string,
    topic: TopicId,
    source: IncId,
    status: Status,
    dependencies: seq<CardId>,
    dependents: seq<CardId>)

  /** One submission links a card in at most one way: to a source item, or
      by dependency edges, or by dependent edges. */
  predicate SingleLinkKind(c: CardRecord) {
    (c.dependencies == [] || c.dependents == []) &&
    (c.source != 0 ==> c.dependencies == [] && c.dependents == [])
  }

  /** What one key press does to an editor `S`: the next editor and the
      cards saved, or a panic. */
  datatype Outcome<S> = Next(next: S, saved: seq<CardRecord>) | Panic

  /** A card with no source item and no edges. */
  predicate Unlinked(c: CardRecord) {
    c.source == 0 && c.dependencies == [] && c.dependents == []
  }

  /** What the editors read from the database, as lookup tables:
      card id to question, card id to topic, source id to topic,
      source id to title, and the topic a freshly loaded topic list selects,
      if any. */
  datatype Lookups = Lookups(
    cardQuestion: map<CardId, string>,
    cardTopic: map<CardId, TopicId>,
    sourceTopic: map<IncId, TopicId>,
    sourceTitle: map<IncId, string>,
    initialTopic: Option<TopicId>)

  /** The first at most n characters of s, as a title loaded with a length
      bound. */
  function Truncated(s: string, n: nat): (r: string)
    ensures |r| <= n && r <= s
    ensures |s| <= n ==> r == s
    ensures |s| > n ==> |r| == n
  {
    if |s| <= n then s else s[..n]
  }

  /** The database connection: fixed lookup tables and the cards saved
      through it, in order. */
  class Connection {
    const db: Lookups
    var saved: seq<CardRecord>

    constructor (db: Lookups)
      ensures this.db == db && saved == []
    {
      this.db := db;
      saved := [];
    }

    /** Writes one card, with its edges, as a unit. */
    method SaveCard(card: CardRecord)
      modifies this
      ensures saved == old(saved) + [card]
    {
      saved := saved + [card];
    }
  }
}
