/**
 * seal/config/configuration.py: `Configuration`, the loaded YAML configuration and the lookups
 * that walk it key by key. Reading and parsing the file is not modelled: `Load` takes the parsed tree.
 */
module Configurations {
  import opened Wrappers
  import opened Errors

  /** A YAML value: a mapping, a scalar, or null. */
  datatype Conf =
    | Mapping(entries: map<string, Conf>)
    | Text(s: string)
    | Number(n: int)
    | Flag(b: bool)
    | List(items: seq<Conf>)
    | Null

  /** Python truthiness: empty containers and strings, zero, False and None are falsy. */
  predicate Truthy(c: Conf)
  {
    match c
    case Mapping(m) => |m| > 0
    case Text(s) => |s| > 0
    case Number(n) => n != 0
    case Flag(b) => b
    case List(xs) => |xs| > 0
    case Null => false
  }

  /**
   * `conf.get(key)`: the entry of a mapping, None for a missing key. On anything but a mapping
   * the call itself raises (AttributeError), which `NoSuchMethod("get")` stands for.
   */
  function Step(conf: Conf, key: string): Result<Option<Conf>, Error>
  {
    match conf
    case Mapping(m) => Ok(if key in m then Some(m[key]) else None)
    case _ => Err(NoSuchMethod("get"))
  }

  /** `get_conf` walked over the keys from `conf`: ValueError at the first falsy step. */
  function Lookup(conf: Conf, keys: seq<string>): (r: Result<Conf, Error>)
    ensures |keys| == 0 ==> r == Ok(conf)
    ensures r.Ok? && |keys| > 0 ==> Truthy(r.value)
  {
    if |keys| == 0 then Ok(conf)
    else
      match Step(conf, keys[0])
      case Err(e) => Err(e)
      case Ok(None) => Err(ConfigNotFound)
      case Ok(Some(c)) => if !Truthy(c) then Err(ConfigNotFound) else Lookup(c, keys[1..])
  }

  /** `get_conf_default` walked over the keys from `conf`: `default` at the first missing or None step. */
  function LookupDefault(conf: Conf, keys: seq<string>, default: Conf): (r: Result<Conf, Error>)
    ensures |keys| == 0 ==> r == Ok(conf)
    ensures r.Ok? && |keys| > 0 ==> r.value == default || r.value != Null
    ensures r.Err? ==> r.error == NoSuchMethod("get")
  {
    if |keys| == 0 then Ok(conf)
    else
      match Step(conf, keys[0])
      case Err(e) => Err(e)
      case Ok(None) => Ok(default)
      case Ok(Some(c)) => if c.Null? then Ok(default) else LookupDefault(c, keys[1..], default)
  }

  class Configuration {
    /** `config_dict` */
    var configDict: Conf

    /** A fresh configuration holds the empty dict. */
    constructor ()
      ensures configDict == Mapping(map[])
    {
      configDict := Mapping(map[]);
    }

    /** `load(path)`, given the tree that parsing the file yields. */
    method Load(parsed: Conf)
      modifies this
      ensures configDict == parsed
    {
      configDict := parsed;
    }

    /** `get_conf(*keys)` */
    method GetConf(keys: seq<string>) returns (r: Result<Conf, Error>)
      ensures r == Lookup(configDict, keys)
    {
      var conf := configDict;
      for i := 0 to |keys|
        invariant Lookup(configDict, keys) == Lookup(conf, keys[i..])
      {
        assert keys[i..][1..] == keys[i + 1..];
        var next := Step(conf, keys[i]);
        if next.Err? {
          return Err(next.error);
        }
        if next.value.None? || !Truthy(next.value.value) {
          return Err(ConfigNotFound);
        }
        conf := next.value.value;
      }
      return Ok(conf);
    }

    /** `get_conf_default(*keys, default=default)` */
    method GetConfDefault(keys: seq<string>, default: Conf := Null) returns (r: Result<Conf, Error>)
      ensures r == LookupDefault(configDict, keys, default)
    {
      var conf := configDict;
      for i := 0 to |keys|
        invariant LookupDefault(configDict, keys, default) == LookupDefault(conf, keys[i..], default)
      {
        assert keys[i..][1..] == keys[i + 1..];
        var next := Step(conf, keys[i]);
        if next.Err? {
          return Err(next.error);
        }
        if next.value.None? || next.value.value.Null? {
          return Ok(default);
        }
        conf := next.value.value;
      }
      return Ok(conf);
    }
  }

  /** Looking up a path of keys that are all present and truthy finds the value at its end. */
  lemma {:induction false} LookupPath(conf: Conf, keys: seq<string>, found: Conf)
    requires |keys| > 0 && Truthy(found)
    requires conf.Mapping? && keys[0] in conf.entries
    requires |keys| == 1 ==> conf.entries[keys[0]] == found
    requires |keys| > 1 ==> Truthy(conf.entries[keys[0]]) && Lookup(conf.entries[keys[0]], keys[1..]) == Ok(found)
    ensures Lookup(conf, keys) == Ok(found)
  {
  }

  /** Where `get_conf` succeeds, `get_conf_default` finds the same value whatever the default. */
  lemma {:induction false} LookupAgrees(conf: Conf, keys: seq<string>, default: Conf)
    requires Lookup(conf, keys).Ok?
    ensures LookupDefault(conf, keys, default) == Lookup(conf, keys)
  {
    if |keys| > 0 {
      var c := Step(conf, keys[0]).value.value;
      LookupAgrees(c, keys[1..], default);
    }
  }

  /**
   * The two lookups differ on falsy values that are not None: `get_conf` raises on a 0 that
   * `get_conf_default` returns.
   */
  lemma FalsyZero()
    ensures Lookup(Mapping(map["port" := Number(0)]), ["port"]) == Err(ConfigNotFound)
    ensures LookupDefault(Mapping(map["port" := Number(0)]), ["port"], Number(3306)) == Ok(Number(0))
  {
  }

  /** A missing key yields the default. */
  lemma MissingGivesDefault(conf: map<string, Conf>, key: string, default: Conf)
    requires key !in conf
    ensures LookupDefault(Mapping(conf), [key], default) == Ok(default)
    ensures Lookup(Mapping(conf), [key]) == Err(ConfigNotFound)
  {
  }
}
