/**
 The transaction the stores share: look the key up, or apply the effect and record its result.
 D is the business data of a store; Domain says what a mutation does to it.
 */
module Ledger {
  import opened Basics

  /** Values a store draws inside a transaction: a random id and the time. */
  datatype Draw = Draw(id: string, now: int)

  datatype Row = Row(name: string, arguments: string, result: string)

  datatype Db<K, D> = Db(data: D, ledger: map<K, Row>)

  datatype Answered = Committed(text: string) | Replayed(text: string) | Conflict | Rejected(code: string)

  /** admit runs before the transaction, apply inside it; an error rolls everything back. */
  datatype Domain<!D> = Domain(
    admit: (string, string, bool) -> Option<string>,
    apply: (D, string, string, Draw) -> Result<(D, string), string>)

  function Transact<K, D>(domain: Domain<D>, canon: string -> string, db: Db<K, D>, key: K,
                          name: string, args: string, confirmed: bool, draw: Draw): (Db<K, D>, Answered)
  {
    match domain.admit(name, args, confirmed)
    case Some(code) => (db, Rejected(code))
    case None =>
      if key in db.ledger then
        var row := db.ledger[key];
        (db, if row.name == name && row.arguments == canon(args) then Replayed(row.result) else Conflict)
      else
        match domain.apply(db.data, name, args, draw)
        case Err(code) => (db, Rejected(code))
        case Ok((data, result)) =>
          (Db(data, db.ledger[key := Row(name, canon(args), result)]), Committed(result))
  }

  predicate Succeeds(answer: Answered) {
    answer.Committed? || answer.Replayed?
  }

  /** Once a key is recorded, the same operation under it returns the recorded result and changes nothing. */
  lemma ReplayIsStable<K, D>(domain: Domain<D>, canon: string -> string, db: Db<K, D>, key: K,
                             name: string, args: string, confirmed: bool, draw: Draw,
                             name': string, args': string, confirmed': bool, draw': Draw)
    requires Succeeds(Transact(domain, canon, db, key, name, args, confirmed, draw).1)
    requires domain.admit(name', args', confirmed').None?
    ensures var (db1, answer) := Transact(domain, canon, db, key, name, args, confirmed, draw);
            var (db2, again) := Transact(domain, canon, db1, key, name', args', confirmed', draw');
            db2 == db1 &&
            again == if name' == name && canon(args') == canon(args) then Replayed(answer.text) else Conflict
  {
  }
}
