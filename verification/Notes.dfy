/** The notes store (apps/mcp-notes/internal/adapters/sqlite/store.go). */
module NotesStore {
  import opened Basics
  import opened Ledger

  datatype Note = Note(title: string, content: string, createdAt: int)

  datatype Input = Input(title: string, content: string, id: string)

  /** How arguments are read and results written. */
  datatype Codec = Codec(
    decode: string -> Option<Input>,
    canon: string -> string,
    created: (string, Note) -> string,
    deleted: string -> string)

  type Data = map<string, Note>

  const CREATE: string := "notes.create"
  const DELETE: string := "notes.delete"

  predicate ValidNote(title: string, content: string) {
    !Blank(title) && Utf8Length(title) <= 256 && !Blank(content) && Utf8Length(content) <= 8192
  }

  function Admitted(codec: Codec, args: string): Option<string> {
    if codec.decode(args).None? then Some("invalid arguments") else None
  }

  function Applied(codec: Codec, data: Data, name: string, args: string, draw: Draw): Result<(Data, string), string> {
    match codec.decode(args)
    case None => Err("invalid arguments")
    case Some(input) =>
      if name == CREATE then
        if !ValidNote(input.title, input.content) then Err("invalid note")
        else if draw.id in data then Err("constraint")
        else
          var note := Note(input.title, input.content, draw.now);
          Ok((data[draw.id := note], codec.created(draw.id, note)))
      else if name == DELETE then
        if input.id == "" then Err("note id required")
        else if input.id !in data then Err("note not found")
        else Ok((data - {input.id}, codec.deleted(input.id)))
      else Err("unknown mutation")
  }

  function NotesDomain(codec: Codec): Domain<Data> {
    Domain((name: string, args: string, confirmed: bool) => Admitted(codec, args),
           (data: Data, name: string, args: string, draw: Draw) => Applied(codec, data, name, args, draw))
  }

  predicate ValidKey(key: string) {
    0 < |key| <= 256
  }

  class Store {
    const codec: Codec
    var notes: map<string, Note>
    var operations: map<string, Row>

    ghost function Value(): Db<string, Data>
      reads this
    {
      Db(notes, operations)
    }

    constructor (codec: Codec)
      ensures this.codec == codec && Value() == Db(map[], map[])
    {
      this.codec := codec;
      notes, operations := map[], map[];
    }

    method Mutate(key: string, name: string, args: string, draw: Draw) returns (answer: Answered)
      modifies this
      ensures !ValidKey(key) ==> Value() == old(Value()) && answer == Rejected("invalid idempotency key")
      ensures ValidKey(key) ==>
                (Value(), answer) == Transact(NotesDomain(codec), codec.canon, old(Value()), key, name, args, false,
                                              draw)
    {
      if key == "" || |key| > 256 {
        return Rejected("invalid idempotency key");
      }
      var decoded := codec.decode(args);
      if decoded.None? {
        return Rejected("invalid arguments");
      }
      var input := decoded.value;
      var encoded := codec.canon(args);
      if key in operations {
        var row := operations[key];
        if row.name != name || row.arguments != encoded {
          return Conflict;
        }
        return Replayed(row.result);
      }
      var changed := notes;
      var result;
      if name == CREATE {
        if !ValidNote(input.title, input.content) {
          return Rejected("invalid note");
        }
        if draw.id in notes {
          return Rejected("constraint");
        }
        var note := Note(input.title, input.content, draw.now);
        changed := changed[draw.id := note];
        result := codec.created(draw.id, note);
      } else if name == DELETE {
        if input.id == "" {
          return Rejected("note id required");
        }
        if input.id !in notes {
          return Rejected("note not found");
        }
        changed := changed - {input.id};
        result := codec.deleted(input.id);
      } else {
        return Rejected("unknown mutation");
      }
      notes := changed;
      operations := operations[key := Row(name, encoded, result)];
      answer := Committed(result);
    }
  }

  /** Notes in the store outside the tables never have an empty or oversized title or content. */
  ghost predicate AllValid(data: Data) {
    forall id | id in data :: ValidNote(data[id].title, data[id].content)
  }

  lemma AppliedKeepsValid(codec: Codec, data: Data, name: string, args: string, draw: Draw)
    requires AllValid(data) && Applied(codec, data, name, args, draw).Ok?
    ensures AllValid(Applied(codec, data, name, args, draw).value.0)
  {
  }

  /** The map grows by one key, or loses one. */
  lemma CountChange<V>(data: map<string, V>, data': map<string, V>, id: string)
    ensures id !in data && data'.Keys == data.Keys + {id} ==> |data'| == |data| + 1
    ensures id in data && data'.Keys == data.Keys - {id} ==> |data'| == |data| - 1
  {
    assert |data| == |data.Keys| && |data'| == |data'.Keys|;
  }

  lemma AppliedCounts(codec: Codec, data: Data, name: string, args: string, draw: Draw)
    requires Applied(codec, data, name, args, draw).Ok?
    ensures |Applied(codec, data, name, args, draw).value.0| == |data| + if name == CREATE then 1 else -1
  {
    var input := codec.decode(args).value;
    var data' := Applied(codec, data, name, args, draw).value.0;
    CountChange(data, data', if name == CREATE then draw.id else input.id);
  }
}
