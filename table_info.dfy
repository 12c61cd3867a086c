/**
 * seal/db/mysql/_meta.py, seal/db/mysql/meta.py and seal/db/sqlite/_meta.py: reading a table's
 * columns and classifying each column type into the Python type of the dynamic model field.
 * The rows that `show columns` or `PRAGMA table_info` return are a parameter.
 */
module TableInfos {
  import opened Text
  import opened Wrappers
  import opened Caches

  /** The Python type a column maps to: int, str, float, bytes, datetime or None. */
  datatype TypeTag = IntType | StrType | FloatType | BytesType | DateTimeType | NoneType

  /** seal/db/table_info.py: `TableInfo`, filled in place by the readers. */
  class TableInfo {
    /** `(name, declared type)` per column. */
    var columns: seq<(string, string)>
    /** `(name, Python type)` per column. */
    var modelFields: seq<(string, TypeTag)>

    constructor ()
      ensures columns == [] && modelFields == []
    {
      columns := [];
      modelFields := [];
    }
  }

  /** A row of MySQL's `show columns`: its `Field` and `Type` entries. */
  datatype ShowColumnsRow = ShowColumnsRow(field: string, fieldType: string)

  /** A string cannot start with two prefixes that differ at a position both of them have. */
  lemma NotBothPrefixes(t: string, a: string, b: string, k: nat)
    requires k < |a| && k < |b| && a[k] != b[k]
    ensures !(StartsWith(t, a) && StartsWith(t, b))
  {
  }

  /** The MySQL classification: by prefix of the declared type, str for anything else. */
  function MysqlType(t: string): (r: TypeTag)
    ensures r == IntType <==> StartsWith(t, "int") || StartsWith(t, "bigint") || StartsWith(t, "tinyint")
    ensures r == FloatType <==> StartsWith(t, "decimal") || StartsWith(t, "float")
    ensures r == DateTimeType <==> StartsWith(t, "datetime")
    ensures r == BytesType <==> StartsWith(t, "blob")
    ensures StartsWith(t, "varchar") || StartsWith(t, "text") ==> r == StrType
    ensures r != NoneType
  {
    NotBothPrefixes(t, "decimal", "bigint", 0);
    NotBothPrefixes(t, "decimal", "int", 0);
    NotBothPrefixes(t, "decimal", "tinyint", 0);
    NotBothPrefixes(t, "decimal", "varchar", 0);
    NotBothPrefixes(t, "decimal", "text", 0);
    NotBothPrefixes(t, "float", "bigint", 0);
    NotBothPrefixes(t, "float", "int", 0);
    NotBothPrefixes(t, "float", "tinyint", 0);
    NotBothPrefixes(t, "float", "varchar", 0);
    NotBothPrefixes(t, "float", "text", 0);
    NotBothPrefixes(t, "varchar", "bigint", 0);
    NotBothPrefixes(t, "varchar", "int", 0);
    NotBothPrefixes(t, "varchar", "tinyint", 0);
    NotBothPrefixes(t, "text", "bigint", 0);
    NotBothPrefixes(t, "text", "int", 0);
    NotBothPrefixes(t, "text", "tinyint", 1);
    NotBothPrefixes(t, "datetime", "bigint", 0);
    NotBothPrefixes(t, "datetime", "int", 0);
    NotBothPrefixes(t, "datetime", "tinyint", 0);
    NotBothPrefixes(t, "datetime", "varchar", 0);
    NotBothPrefixes(t, "datetime", "text", 0);
    NotBothPrefixes(t, "datetime", "decimal", 1);
    NotBothPrefixes(t, "datetime", "float", 0);
    NotBothPrefixes(t, "datetime", "blob", 0);
    NotBothPrefixes(t, "blob", "bigint", 1);
    NotBothPrefixes(t, "blob", "int", 0);
    NotBothPrefixes(t, "blob", "tinyint", 0);
    NotBothPrefixes(t, "blob", "varchar", 0);
    NotBothPrefixes(t, "blob", "text", 0);
    NotBothPrefixes(t, "blob", "decimal", 0);
    NotBothPrefixes(t, "blob", "float", 0);
    if StartsWith(t, "bigint") || StartsWith(t, "int") || StartsWith(t, "tinyint") then IntType
    else if StartsWith(t, "varchar") || StartsWith(t, "text") then StrType
    else if StartsWith(t, "decimal") || StartsWith(t, "float") then FloatType
    else if StartsWith(t, "blob") then BytesType
    else if StartsWith(t, "datetime") then DateTimeType
    else StrType
  }

  /** Widths and modifiers after the prefix do not matter. */
  lemma MysqlTypeIgnoresWidth()
    ensures MysqlType("tinyint(1)") == IntType
    ensures MysqlType("varchar(64)") == StrType
    ensures MysqlType("datetime(6)") == DateTimeType
  {
    assert StartsWith("tinyint(1)", "tinyint") by { assert "tinyint(1)"[..7] == "tinyint"; }
    assert StartsWith("datetime(6)", "datetime") by { assert "datetime(6)"[..8] == "datetime"; }
    NotBothPrefixes("varchar(64)", "varchar", "bigint", 0);
    NotBothPrefixes("varchar(64)", "varchar", "int", 0);
    NotBothPrefixes("varchar(64)", "varchar", "tinyint", 0);
    assert StartsWith("varchar(64)", "varchar") by { assert "varchar(64)"[..7] == "varchar"; }
  }

  /** `date`, which only shares a beginning with `datetime`, falls through to str. */
  lemma MysqlDateIsStr()
    ensures MysqlType("date") == StrType
  {
    NotBothPrefixes("date", "date", "bigint", 0);
    NotBothPrefixes("date", "date", "int", 0);
    NotBothPrefixes("date", "date", "tinyint", 0);
    NotBothPrefixes("date", "date", "varchar", 0);
    NotBothPrefixes("date", "date", "text", 0);
    NotBothPrefixes("date", "date", "decimal", 1);
    NotBothPrefixes("date", "date", "float", 0);
    NotBothPrefixes("date", "date", "blob", 0);
    StartsWithConcat("date", "");
    assert "date" + "" == "date";
  }

  /** `Meta.get_table_info` of seal/db/mysql/_meta.py, on the rows the query returned. */
  method MysqlTableInfo(rows: seq<ShowColumnsRow>) returns (info: TableInfo)
    ensures fresh(info)
    ensures |info.columns| == |rows| && |info.modelFields| == |rows|
    ensures forall i | 0 <= i < |rows| ::
      info.columns[i] == (rows[i].field, rows[i].fieldType) &&
      info.modelFields[i] == (rows[i].field, MysqlType(rows[i].fieldType))
  {
    info := new TableInfo();
    for i := 0 to |rows|
      invariant |info.columns| == i && |info.modelFields| == i
      invariant forall j | 0 <= j < i ::
        info.columns[j] == (rows[j].field, rows[j].fieldType) &&
        info.modelFields[j] == (rows[j].field, MysqlType(rows[j].fieldType))
    {
      var fieldType := rows[i].fieldType;
      var fieldName := rows[i].field;
      info.columns := info.columns + [(fieldName, fieldType)];
      var tag;
      if StartsWith(fieldType, "bigint") || StartsWith(fieldType, "int") || StartsWith(fieldType, "tinyint") {
        tag := IntType;
      } else if StartsWith(fieldType, "varchar") || StartsWith(fieldType, "text") {
        tag := StrType;
      } else if StartsWith(fieldType, "decimal") || StartsWith(fieldType, "float") {
        tag := FloatType;
      } else if StartsWith(fieldType, "blob") {
        tag := BytesType;
      } else if StartsWith(fieldType, "datetime") {
        tag := DateTimeType;
      } else {
        tag := StrType;
      }
      info.modelFields := info.modelFields + [(fieldName, tag)];
    }
  }

  /** The cache key of a table's info in seal/db/mysql/meta.py. */
  function CacheKey(table: string): (k: string)
    ensures StartsWith(k, "table_info_") && k[|"table_info_"|..] == table
  {
    "table_info_" + table
  }

  /** Different tables never share a cache entry. */
  lemma CacheKeysDistinct(a: string, b: string)
    requires a != b
    ensures CacheKey(a) != CacheKey(b)
  {
    assert CacheKey(a)[11..] == a && CacheKey(b)[11..] == b;
  }

  /**
   * `Meta.get_table_info` of seal/db/mysql/meta.py: a cached info is returned as it is, without
   * reading `rows`; otherwise the info is built from `rows` and stored under the table's key.
   */
  method CachedMysqlTableInfo(cache: Cache<string, TableInfo>, table: string, rows: seq<ShowColumnsRow>)
    returns (info: TableInfo)
    modifies cache
    ensures old(cache.Get(CacheKey(table))).Some? ==>
      info == old(cache.Get(CacheKey(table))).value && cache.container == old(cache.container)
    ensures old(cache.Get(CacheKey(table))).None? ==>
      fresh(info) && cache.container == old(cache.container)[CacheKey(table) := info] &&
      |info.columns| == |rows| && |info.modelFields| == |rows| &&
      forall i | 0 <= i < |rows| ::
        info.columns[i] == (rows[i].field, rows[i].fieldType) &&
        info.modelFields[i] == (rows[i].field, MysqlType(rows[i].fieldType))
    ensures cache.Get(CacheKey(table)) == Some(info)
  {
    var cached := cache.Get(CacheKey(table));
    if cached.Some? {
      return cached.value;
    }
    info := MysqlTableInfo(rows);
    cache.Set(CacheKey(table), info);
  }

  /** A row of SQLite's `PRAGMA table_info`: its name (index 1) and declared type (index 2). */
  datatype PragmaRow = PragmaRow(name: string, declaredType: string)

  /** The SQLite classification: exact, case-sensitive matches, str for anything else. */
  function SqliteType(t: string): (r: TypeTag)
    ensures r == NoneType <==> t == "NULL"
    ensures r == IntType <==> t == "INTEGER"
    ensures r == FloatType <==> t == "REAL"
    ensures r == BytesType <==> t == "BLOB"
    ensures r == DateTimeType <==> t == "DATETIME"
    ensures r == StrType <==> t !in ["INTEGER", "REAL", "BLOB", "DATETIME", "NULL"]
  {
    if t == "INTEGER" then IntType
    else if t == "TEXT" then StrType
    else if t == "REAL" then FloatType
    else if t == "BLOB" then BytesType
    else if t == "DATETIME" then DateTimeType
    else if t == "NULL" then NoneType
    else StrType
  }

  /** `Meta.get_table_info` of seal/db/sqlite/_meta.py, on the PRAGMA rows. */
  method SqliteTableInfo(rows: seq<PragmaRow>) returns (info: TableInfo)
    ensures fresh(info)
    ensures |info.columns| == |rows| && |info.modelFields| == |rows|
    ensures forall i | 0 <= i < |rows| ::
      info.columns[i] == (rows[i].name, rows[i].declaredType) &&
      info.modelFields[i] == (rows[i].name, SqliteType(rows[i].declaredType))
  {
    info := new TableInfo();
    for i := 0 to |rows|
      invariant |info.columns| == i && |info.modelFields| == i
      invariant forall j | 0 <= j < i ::
        info.columns[j] == (rows[j].name, rows[j].declaredType) &&
        info.modelFields[j] == (rows[j].name, SqliteType(rows[j].declaredType))
    {
      info.columns := info.columns + [(rows[i].name, rows[i].declaredType)];
      var t := rows[i].declaredType;
      var tag;
      if t == "INTEGER" {
        tag := IntType;
      } else if t == "TEXT" {
        tag := StrType;
      } else if t == "REAL" {
        tag := FloatType;
      } else if t == "BLOB" {
        tag := BytesType;
      } else if t == "DATETIME" {
        tag := DateTimeType;
      } else if t == "NULL" {
        tag := NoneType;
      } else {
        tag := StrType;
      }
      info.modelFields := info.modelFields + [(rows[i].name, tag)];
    }
  }
}
