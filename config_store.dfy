/**
 * The per-chat configuration store: a durable table of rows keyed by chat id
 * (telegram_group_configs, at most one row per chat) with a cache-aside copy in Redis
 * under "Telegram:GroupConfig:<chat>". A write upserts the row and then deletes the
 * cache key; a read returns a non-empty cached value, or reads the table and caches
 * what it found (a missing row is cached as JSON null, which reads back as empty).
 */
module ConfigStore {
  import opened Php
  import opened Catalog

  /** A durable row as read back: target language code and engine id. */
  datatype Row = Row(targetLanguage: string, modelId: int)

  /** The partial update a callback asks for. */
  datatype ConfigWrite =
    | WriteLanguage(code: string)    // ['translate_target_language' => code]
    | WriteModel(id: string)         // ['translate_model_id' => id], id still a string

  /** The durable table: chat id to row. */
  type Table = map<int, Row>

  /** The cache: chat id to the decoded cached value; None is a cached JSON null. */
  type Cache = map<int, Option<Row>>

  const MaxUnsignedSmall: int := 65535

  /**
   * What the table's unsigned small-integer column accepts for a string: a non-empty
   * run of digits with a value in range; None is a rejected write.
   */
  function ColumnSmallInt(s: string): (v: Option<int>)
    ensures v.Some? <==> |s| >= 1 && AllDigits(s) && DigitsValue(s) <= MaxUnsignedSmall
    ensures v.Some? ==> 0 <= v.value <= MaxUnsignedSmall && v.value == DigitsValue(s)
  {
    if |s| >= 1 && AllDigits(s) && DigitsValue(s) <= MaxUnsignedSmall then Some(DigitsValue(s)) else None
  }

  /** The column holds the rendering of every number it can store, and refuses every larger one. */
  lemma ColumnSmallIntOfRendering(n: nat)
    ensures ColumnSmallInt(NatString(n)) == (if n <= MaxUnsignedSmall then Some(n) else None)
  {
    NatStringValue(n);
  }

  /** The column refuses the empty string and any string with a character that is not a digit. */
  lemma ColumnRefusesNonDigits(s: string, i: int)
    requires 0 <= i < |s| && !IsDigit(s[i])
    ensures ColumnSmallInt(s).None? && ColumnSmallInt("").None?
  {
  }

  function Lookup(table: Table, chat: int): (r: Option<Row>)
    ensures r.Some? <==> chat in table
    ensures r.Some? ==> r.value == table[chat]
  {
    if chat in table then Some(table[chat]) else None
  }

  /**
   * `updateOrCreate(['chat_id' => chat], write)`. An existing row gets the one field
   * replaced. A new row is created only by a language write, with the column default
   * engine; a model write for a chat without a row is rejected, because the language
   * column is required and has no default. A model id the column cannot hold is
   * rejected too. None is a rejected write (the table is unchanged).
   */
  function Upsert(table: Table, chat: int, write: ConfigWrite): (r: Option<Table>)
    ensures r.None? <==> write.WriteModel? && (chat !in table || ColumnSmallInt(write.id).None?)
    ensures r.Some? ==> r.value.Keys == table.Keys + {chat}
    ensures r.Some? ==> forall k :: k in table && k != chat ==> r.value[k] == table[k]
    ensures r.Some? && write.WriteLanguage? ==>
      r.value[chat].targetLanguage == write.code
      && r.value[chat].modelId == (if chat in table then table[chat].modelId else DefaultModel)
    ensures r.Some? && write.WriteModel? ==>
      r.value[chat].targetLanguage == table[chat].targetLanguage
      && r.value[chat].modelId == DigitsValue(write.id)
  {
    match write
    case WriteLanguage(code) =>
      if chat in table then Some(table[chat := table[chat].(targetLanguage := code)])
      else Some(table[chat := Row(code, DefaultModel)])
    case WriteModel(id) =>
      match ColumnSmallInt(id)
      case None => None
      case Some(v) => if chat in table then Some(table[chat := table[chat].(modelId := v)]) else None
  }

  /** `Redis::del`: drop the cached copy of one chat. */
  function Invalidate(cache: Cache, chat: int): (c: Cache)
    ensures c.Keys == cache.Keys - {chat}
    ensures forall k :: k in c ==> c[k] == cache[k]
  {
    cache - {chat}
  }

  /** The outcome of a read: the configuration found and the cache afterwards. */
  datatype Read = Read(config: Option<Row>, cache: Cache)

  /** getTelegramGroupConfig: read-through with a cached empty value falling through. */
  function ReadThrough(cache: Cache, table: Table, chat: int): (r: Read)
    ensures r.cache.Keys == cache.Keys + {chat} && chat in r.cache && r.cache[chat] == r.config
    ensures forall k :: k in cache && k != chat ==> r.cache[k] == cache[k]
    ensures r.config.None? ==> chat !in table
  {
    if chat in cache && cache[chat].Some? then Read(cache[chat], cache)
    else Read(Lookup(table, chat), cache[chat := Lookup(table, chat)])
  }

  /** Every non-empty cached value is the durable row of its chat. */
  ghost predicate Coherent(cache: Cache, table: Table) {
    forall k :: k in cache && cache[k].Some? ==> k in table && table[k] == cache[k].value
  }

  /** A missing or empty cached value is read from the table and cached. */
  lemma EmptyCacheFallsThrough(cache: Cache, table: Table, chat: int)
    requires chat !in cache || cache[chat].None?
    ensures ReadThrough(cache, table, chat).config == Lookup(table, chat)
    ensures ReadThrough(cache, table, chat).cache == cache[chat := Lookup(table, chat)]
  {
  }

  /** A write followed by a read returns the row just written. */
  lemma ReadAfterWrite(cache: Cache, table: Table, chat: int, write: ConfigWrite)
    requires Upsert(table, chat, write).Some?
    ensures var t := Upsert(table, chat, write).value;
      ReadThrough(Invalidate(cache, chat), t, chat).config == Some(t[chat])
  {
  }

  /** A coherent cache reads as the table, and stays coherent. */
  lemma CoherentReadIsDurable(cache: Cache, table: Table, chat: int)
    requires Coherent(cache, table)
    ensures ReadThrough(cache, table, chat).config == Lookup(table, chat)
    ensures Coherent(ReadThrough(cache, table, chat).cache, table)
  {
  }

  /** Write-then-invalidate keeps the cache coherent with the table. */
  lemma WriteKeepsCoherent(cache: Cache, table: Table, chat: int, write: ConfigWrite)
    requires Coherent(cache, table)
    requires Upsert(table, chat, write).Some?
    ensures Coherent(Invalidate(cache, chat), Upsert(table, chat, write).value)
  {
    var t := Upsert(table, chat, write).value;
    var c := Invalidate(cache, chat);
    forall k | k in c && c[k].Some? ensures k in t && t[k] == c[k].value {
      assert k != chat && k in table;
    }
  }

  /** Writing the same selection twice leaves the table as writing it once (last write wins). */
  lemma UpsertIdempotent(table: Table, chat: int, write: ConfigWrite)
    requires Upsert(table, chat, write).Some?
    ensures Upsert(Upsert(table, chat, write).value, chat, write) == Upsert(table, chat, write)
  {
    var t := Upsert(table, chat, write).value;
    var t2 := Upsert(t, chat, write).value;
    assert t2.Keys == t.Keys;
    assert t2[chat] == t[chat];
    assert t2 == t;
  }

  /** A later language write overrides an earlier one, whichever came first. */
  lemma LanguageLastWriteWins(table: Table, chat: int, a: string, b: string)
    ensures Upsert(Upsert(table, chat, WriteLanguage(a)).value, chat, WriteLanguage(b))
         == Upsert(table, chat, WriteLanguage(b))
  {
    var t2 := Upsert(Upsert(table, chat, WriteLanguage(a)).value, chat, WriteLanguage(b)).value;
    var t1 := Upsert(table, chat, WriteLanguage(b)).value;
    assert t2.Keys == t1.Keys;
    assert t2[chat] == t1[chat];
    assert t2 == t1;
  }
}
