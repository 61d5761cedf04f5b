/** The SQL changes saver (changessaversimplesql.go): turns a change
    event's data into a column value with a converter and writes it to the
    row of the event's object, inserting the row if it is missing and
    updating it otherwise. The database is the map `Table.rows` from the
    identifier column's value to the value column's value; opening the
    connection and executing the statement are inputs (their errors). */
module ChangesSaver {
  import opened Base
  import opened Text
  import opened ChangesProvider

  const ConnStringKey := "conn_string"
  const TableKey := "item_flags_table"
  const ItemColumnKey := "item_column"
  const DataColumnKey := "data_column"

  /** `ChangeValueConverters.Default` and `ChangeValueConverters.Int`. */
  datatype Converter = Default | Int

  /** What a converter hands to the database driver. */
  datatype Value = Text(s: string) | Number(n: int)

  /** `Convert`: Default rewrites every `,` of the event's data to `;`
      and never fails; Int parses the data as a decimal int. */
  function Convert(c: Converter, e: ChangeEvent): (r: Result<Value, Error>)
    ensures c == Default ==> r.Success? && r.value.Text? && ',' !in r.value.s && |r.value.s| == |e.change.Data|
    ensures c == Int ==> (r.Success? <==> Atoi(e.Data()).Success?)
    ensures c == Int && r.Success? ==> r.value == Number(Atoi(e.Data()).value)
    ensures r.Failure? ==> r.error == NumError(e.Data())
  {
    match c
    case Default => Success(Text(CommaToSemicolon(e.Data())))
    case Int =>
      match Atoi(e.Data())
      case Success(n) => Success(Number(n))
      case Failure(err) => Failure(err)
  }

  /** The Default converter's rewrite adds nothing to `Data()`'s own: it
      hands over exactly the event's data. */
  lemma DefaultConvertsToData(e: ChangeEvent)
    ensures Convert(Default, e) == Success(Text(e.Data()))
  {
    DataIdempotent(e);
  }

  /** The Int converter accepts exactly the rendering of an int64. */
  lemma IntConvertsRendering(e: ChangeEvent, n: int)
    requires IsInt64(n) && e.change.Data == Itoa(n)
    ensures Convert(Int, e) == Success(Number(n))
  {
    var r := Itoa(n);
    forall i | 0 <= i < |r|
      ensures r[i] != ','
    {
      if n < 0 && i > 0 {
        assert r[i] == Digits(-n)[i - 1];
      }
    }
    CommaFreeUnchanged(r);
    AtoiItoa(n);
  }

  /** Where the default processor writes: table and column names. */
  datatype TargetInfo = TargetInfo(tableName: string, identifierColumnName: string, valueColumnName: string)

  /** A simple saver: the default processor over a target and a converter. */
  datatype Saver = Saver(target: TargetInfo, converter: Converter)

  /** `NewSimpleSqlChangesSaver`'s checks, in the source's order: nil cfg
      and logger, then the four keys, then `sql.Open` (`openErr`). A nil
      converter means the Default one. */
  function NewSimpleSqlChangesSaver(cfg: Option<Config>, l: Option<Component>, c: Option<Converter>,
                                    openErr: Option<Error>): (r: Result<Saver, Error>)
    ensures cfg.None? ==> r == Failure(Error("must be not-nil cfg"))
    ensures cfg.Some? && l.None? ==> r == Failure(Error("must be not-nil logger"))
    ensures r.Success? <==>
      cfg.Some? && l.Some? && ConnStringKey in cfg.value.strings && TableKey in cfg.value.strings &&
      ItemColumnKey in cfg.value.strings && DataColumnKey in cfg.value.strings && openErr.None?
    ensures r.Success? ==>
      && r.value.converter == (if c.None? then Default else c.value)
      && r.value.target == TargetInfo(cfg.value.strings[TableKey], cfg.value.strings[ItemColumnKey],
                                      cfg.value.strings[DataColumnKey])
    ensures cfg.Some? && l.Some? && ConnStringKey !in cfg.value.strings ==>
      r == Failure(MissingKey(ConnStringKey))
    ensures cfg.Some? && l.Some? && ConnStringKey in cfg.value.strings && TableKey !in cfg.value.strings ==>
      r == Failure(MissingKey(TableKey))
    ensures cfg.Some? && l.Some? && ConnStringKey in cfg.value.strings && TableKey in cfg.value.strings &&
            ItemColumnKey !in cfg.value.strings ==>
      r == Failure(MissingKey(ItemColumnKey))
    ensures cfg.Some? && l.Some? && ConnStringKey in cfg.value.strings && TableKey in cfg.value.strings &&
            ItemColumnKey in cfg.value.strings && DataColumnKey !in cfg.value.strings ==>
      r == Failure(MissingKey(DataColumnKey))
    ensures cfg.Some? && l.Some? && ConnStringKey in cfg.value.strings && TableKey in cfg.value.strings &&
            ItemColumnKey in cfg.value.strings && DataColumnKey in cfg.value.strings && openErr.Some? ==>
      r == Failure(openErr.value)
  {
    if cfg.None? then Failure(Error("must be not-nil cfg"))
    else if l.None? then Failure(Error("must be not-nil logger"))
    else
      var conv := if c.None? then Default else c.value;
      match cfg.value.GetString(ConnStringKey)
      case Failure(e) => Failure(e)
      case Success(_) =>
        match cfg.value.GetString(TableKey)
        case Failure(e) => Failure(e)
        case Success(table) =>
          match cfg.value.GetString(ItemColumnKey)
          case Failure(e) => Failure(e)
          case Success(item) =>
            match cfg.value.GetString(DataColumnKey)
            case Failure(e) => Failure(e)
            case Success(data) =>
              if openErr.Some? then Failure(openErr.value)
              else Success(Saver(TargetInfo(table, item, data), conv))
  }

  /** `NewCustomSqlChangesSaver`'s checks, in the source's order: nil cfg,
      logger and fabric, the connection string, `sql.Open` (`openErr`), then
      the fabric's `New` (`fabricErr`). On success the saver runs the
      fabric's processor, which this model does not look inside. */
  function NewCustomSqlChangesSaver(cfg: Option<Config>, l: Option<Component>, pf: Option<Component>,
                                    openErr: Option<Error>, fabricErr: Option<Error>): (r: Result<Component, Error>)
    ensures cfg.None? ==> r == Failure(Error("must be not-nil cfg"))
    ensures cfg.Some? && l.None? ==> r == Failure(Error("must be not-nil logger"))
    ensures cfg.Some? && l.Some? && pf.None? ==> r == Failure(Error("must be not-nil SqlSaverProcessorFunc"))
    ensures r.Success? <==>
      cfg.Some? && l.Some? && pf.Some? && ConnStringKey in cfg.value.strings && openErr.None? && fabricErr.None?
    ensures r.Success? ==> r.value == pf.value
    ensures cfg.Some? && l.Some? && pf.Some? && ConnStringKey !in cfg.value.strings ==>
      r == Failure(MissingKey(ConnStringKey))
    ensures cfg.Some? && l.Some? && pf.Some? && ConnStringKey in cfg.value.strings && openErr.Some? ==>
      r == Failure(openErr.value)
    ensures cfg.Some? && l.Some? && pf.Some? && ConnStringKey in cfg.value.strings && openErr.None? && fabricErr.Some? ==>
      r == Failure(fabricErr.value)
  {
    if cfg.None? then Failure(Error("must be not-nil cfg"))
    else if l.None? then Failure(Error("must be not-nil logger"))
    else if pf.None? then Failure(Error("must be not-nil SqlSaverProcessorFunc"))
    else
      match cfg.value.GetString(ConnStringKey)
      case Failure(e) => Failure(e)
      case Success(_) =>
        if openErr.Some? then Failure(openErr.value)
        else if fabricErr.Some? then Failure(fabricErr.value)
        else Success(pf.value)
  }

  /** The effect of the `if not exists … insert … else update …`
      statement: the row of `id` holds `v`, whether it existed or not. */
  function Upsert(rows: map<string, Value>, id: string, v: Value): (rows': map<string, Value>)
    ensures id in rows' && rows'[id] == v
    ensures rows'.Keys == rows.Keys + {id}
    ensures forall k :: k in rows && k != id ==> rows'[k] == rows[k]
  {
    rows[id := v]
  }

  /** Saving the same value twice leaves the table as saving it once. */
  lemma UpsertIdempotent(rows: map<string, Value>, id: string, v: Value)
    ensures Upsert(Upsert(rows, id, v), id, v) == Upsert(rows, id, v)
  {
  }

  /** Saving a later value for the same object replaces the earlier one. */
  lemma UpsertLatestWins(rows: map<string, Value>, id: string, v1: Value, v2: Value)
    ensures Upsert(Upsert(rows, id, v1), id, v2) == Upsert(rows, id, v2)
  {
  }

  /** The target table of the default processor. */
  class Table {
    var rows: map<string, Value>

    constructor (rows: map<string, Value>)
      ensures this.rows == rows
    {
      this.rows := rows;
    }

    /** `sqlSaver.Process` with the default processor: convert the data
        (a conversion error is returned wrapped, the table untouched), then
        execute the statement for the event's object (`execErr` is what
        `ExecContext` returns; an error is returned as is and the table is
        left unchanged). */
    method Process(s: Saver, e: ChangeEvent, execErr: Option<Error>) returns (err: Option<Error>)
      modifies this
      ensures Convert(s.converter, e).Failure? ==>
        err == Some(Error("cant convert data: " + Convert(s.converter, e).error.Message())) && rows == old(rows)
      ensures Convert(s.converter, e).Success? && execErr.Some? ==> err == execErr && rows == old(rows)
      ensures Convert(s.converter, e).Success? && execErr.None? ==>
        err.None? && rows == Upsert(old(rows), e.ObjectIdentifier(), Convert(s.converter, e).value)
      ensures err.None? ==> e.ObjectIdentifier() in rows
    {
      var data := Convert(s.converter, e);
      if data.Failure? {
        return Some(Error("cant convert data: " + data.error.Message()));
      }
      if execErr.Some? {
        return execErr;
      }
      rows := Upsert(rows, e.ObjectIdentifier(), data.value);
      return None;
    }
  }
}
