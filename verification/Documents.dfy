/** Decoded JSON documents in the forms Go code meets them, and the readers of lists, maps and numbers. */
module Documents {
  import opened Text
  import opened Provider

  /** The map keys the provider gives a meaning to, and every other text. */
  datatype Key =
    | ServicesKey | RunnerKey | CustomCompose | CustomComposeText
    | Image | User | Restart | Entrypoint | CapDrop | SecurityOpt | Cpus | MemLimit | Tmpfs | LabelsKey | EnvironmentKey
    | ExtraHosts
    | Managed | Schema | Controller | Pool | Profile | HostGateway
    | CallbackURL | MetadataURL | InstanceToken | DownloadURL | Filename | SHA256
    | Unknown(text: string)

  function Spelling(k: Key): string {
    match k
    case ServicesKey => "services" case RunnerKey => "runner"
    case CustomCompose => "custom_compose_config" case CustomComposeText => "custom_compose_config_string"
    case Image => "image" case User => "user" case Restart => "restart" case Entrypoint => "entrypoint"
    case CapDrop => "cap_drop" case SecurityOpt => "security_opt" case Cpus => "cpus" case MemLimit => "mem_limit"
    case Tmpfs => "tmpfs" case LabelsKey => "labels" case EnvironmentKey => "environment" case ExtraHosts => "extra_hosts"
    case Managed => "io.sempersupra.garm.managed" case Schema => "io.sempersupra.garm.schema"
    case Controller => "io.sempersupra.garm.controller-id" case Pool => "io.sempersupra.garm.pool-id"
    case Profile => "io.sempersupra.garm.execution-profile"
    case HostGateway => "io.sempersupra.garm.callback-host-gateway"
    case CallbackURL => "GARM_CALLBACK_URL" case MetadataURL => "GARM_METADATA_URL"
    case InstanceToken => "GARM_INSTANCE_TOKEN" case DownloadURL => "GARM_RUNNER_DOWNLOAD_URL"
    case Filename => "GARM_RUNNER_FILENAME" case SHA256 => "GARM_RUNNER_SHA256"
    case Unknown(text) => text
  }

  const KNOWN_KEYS: seq<Key> :=
    [ServicesKey, RunnerKey, CustomCompose, CustomComposeText, Image, User, Restart, Entrypoint, CapDrop, SecurityOpt, Cpus,
     MemLimit, Tmpfs, LabelsKey, EnvironmentKey, ExtraHosts, Managed, Schema, Controller, Pool, Profile, HostGateway,
     CallbackURL, MetadataURL, InstanceToken, DownloadURL, Filename, SHA256]

  function FirstSpelled(text: string, keys: seq<Key>): (k: Key)
    ensures Spelling(k) == text
  {
    if keys == [] then Unknown(text)
    else if Spelling(keys[0]) == text then keys[0]
    else FirstSpelled(text, keys[1..])
  }

  /** The key a text is; two texts are never the same key. */
  function KeyOf(text: string): (k: Key)
    ensures Spelling(k) == text
  {
    FirstSpelled(text, KNOWN_KEYS)
  }

  /** `Int` is any Go integer, `Float` a float64, `Numeral` a json.Number; `Strs` and `Texts` are the typed
      `[]string` and `map[string]string`, `List` and `Object` their `any` forms. */
  datatype Value =
    | Null
    | Bool(b: bool)
    | Int(n: int)
    | Float(r: real)
    | Numeral(text: string)
    | Str(s: string)
    | Strs(strs: seq<string>)
    | List(items: seq<Value>)
    | Texts(texts: map<Key, string>)
    | Object(fields: map<Key, Value>)

  /** The document `json.Unmarshal` makes of what `json.Marshal` printed, for integers a float64 holds exactly; the
      provider prints no others (`Lawful`). */
  function Reread(v: Value): Value {
    match v
    case Int(n) => Float(n as real)
    case Strs(strs) => List(seq(|strs|, i requires 0 <= i < |strs| => Str(strs[i])))
    case List(items) => List(seq(|items|, i requires 0 <= i < |items| => Reread(items[i])))
    case Texts(texts) => Object(map k | k in texts :: Str(texts[k]))
    case Object(fields) => Object(map k | k in fields :: Reread(fields[k]))
    case _ => v
  }

  /** `integerValue` */
  function IntegerValue(v: Value): Option<int> {
    match v
    case Int(n) => if Int64(n) then Some(n) else None
    case Float(r) => if Int64(r.Floor) && r.Floor as real == r then Some(r.Floor) else None
    case Numeral(text) =>
      (match ParseDecimal(text)
       case Some(n) => if Int64(n) then Some(n) else None
       case None => None)
    case _ => None
  }

  function StringsOf(items: seq<Value>): Option<seq<string>> {
    if items == [] then Some([])
    else
      var last := items[|items| - 1];
      match StringsOf(items[..|items| - 1])
      case Some(strs) => if last.Str? then Some(strs + [last.s]) else None
      case None => None
  }

  /** `stringList` */
  function StringList(v: Value): Option<seq<string>> {
    match v
    case Strs(strs) => Some(strs)
    case List(items) => StringsOf(items)
    case _ => None
  }

  method ReadStringList(v: Value) returns (r: Option<seq<string>>)
    ensures r == StringList(v)
  {
    match v
    case Strs(strs) => return Some(strs);
    case List(items) =>
      var out := [];
      for i := 0 to |items|
        invariant StringsOf(items[..i]) == Some(out)
      {
        assert items[..i + 1][..i] == items[..i];
        if !items[i].Str? {
          NotStrings(items, i);
          return None;
        }
        out := out + [items[i].s];
      }
      assert items[..|items|] == items;
      return Some(out);
    case _ => return None;
  }

  lemma {:induction false} NotStrings(items: seq<Value>, i: nat)
    requires i < |items| && !items[i].Str?
    ensures StringsOf(items) == None
  {
    if i < |items| - 1 { NotStrings(items[..|items| - 1], i); }
  }

  /** One `KEY=VALUE` entry of the list form. */
  function Entry(v: Value): Option<(Key, string)> {
    if !v.Str? then None
    else match Cut(v.s, '=')
      case Some((key, value)) => if key == "" then None else Some((KeyOf(key), value))
      case None => None
  }

  /** The map a list of entries spells; a later entry wins. */
  function EntriesOf(items: seq<Value>): Option<map<Key, string>> {
    if items == [] then Some(map[])
    else
      match (EntriesOf(items[..|items| - 1]), Entry(items[|items| - 1]))
      case (Some(m), Some((key, value))) => Some(m[key := value])
      case _ => None
  }

  /** `labelMap` and `stringMap`, which differ only in the words of their errors. */
  function StringMap(v: Value): Option<map<Key, string>> {
    match v
    case Object(fields) =>
      if forall k | k in fields :: fields[k].Str? then Some(map k | k in fields :: fields[k].s) else None
    case Texts(texts) => Some(texts)
    case List(items) => EntriesOf(items)
    case _ => None
  }

  method ReadStringMap(v: Value) returns (r: Option<map<Key, string>>)
    ensures r == StringMap(v)
  {
    match v
    case Object(fields) =>
      r := ReadFields(fields);
    case Texts(texts) => return Some(texts);
    case List(items) =>
      var out: map<Key, string> := map[];
      for i := 0 to |items|
        invariant EntriesOf(items[..i]) == Some(out)
      {
        assert items[..i + 1][..i] == items[..i];
        var entry := Entry(items[i]);
        if entry.None? {
          NotEntries(items, i);
          return None;
        }
        out := out[entry.value.0 := entry.value.1];
      }
      assert items[..|items|] == items;
      return Some(out);
    case _ => return None;
  }

  method ReadFields(fields: map<Key, Value>) returns (r: Option<map<Key, string>>)
    ensures r == StringMap(Object(fields))
  {
    var out: map<Key, string> := map[];
    var todo := fields.Keys;
    while todo != {}
      invariant todo <= fields.Keys && out.Keys == fields.Keys - todo
      invariant forall k | k in out :: fields[k] == Str(out[k])
    {
      var k :| k in todo;
      if !fields[k].Str? { return None; }
      out := out[k := fields[k].s];
      todo := todo - {k};
    }
    assert out == map k | k in fields :: fields[k].s;
    return Some(out);
  }

  lemma {:induction false} NotEntries(items: seq<Value>, i: nat)
    requires i < |items| && Entry(items[i]) == None
    ensures EntriesOf(items) == None
  {
    if i < |items| - 1 { NotEntries(items[..|items| - 1], i); }
  }

  /** Printing a list of strings and reading it back as JSON loses nothing. */
  lemma {:induction false} RereadStrings(strs: seq<string>)
    ensures StringList(Reread(Strs(strs))) == Some(strs)
  {
    if strs != [] {
      var n := |strs| - 1;
      RereadStrings(strs[..n]);
      assert Reread(Strs(strs)).items[..n] == Reread(Strs(strs[..n])).items;
      assert strs[..n] + [strs[n]] == strs;
    }
  }

  lemma RereadTexts(texts: map<Key, string>)
    ensures StringMap(Reread(Texts(texts))) == Some(texts)
  {
    var fields := Reread(Texts(texts)).fields;
    assert (map k | k in fields :: fields[k].s) == texts;
  }

  lemma RereadTwice(v: Value)
    ensures Reread(Reread(v)) == Reread(v)
  {
    match v
    case List(items) =>
      forall i | 0 <= i < |items| { RereadTwice(items[i]); }
    case Object(fields) =>
      forall k | k in fields { RereadTwice(fields[k]); }
      assert (map k | k in Reread(v).fields :: Reread(Reread(v).fields[k])) == Reread(v).fields;
    case _ =>
  }

  // ----- what the readers accept -----

  /** An integer is read from exactly the forms Go has for that integer, within 64 bits. */
  lemma IntegersRead(v: Value, n: int)
    ensures IntegerValue(v) == Some(n) <==>
              -0x8000_0000_0000_0000 <= n < 0x8000_0000_0000_0000
              && (v == Int(n) || v == Float(n as real) || (v.Numeral? && ParseDecimal(v.text) == Some(n)))
  {
    hide ParseDecimal;
    if v.Float? && v.r == n as real { assert v.r.Floor == n; }
  }

  predicate Spells(items: seq<Value>, strs: seq<string>) {
    |items| == |strs| && forall i | 0 <= i < |items| :: items[i] == Str(strs[i])
  }

  lemma {:induction false} StringsSpell(items: seq<Value>, strs: seq<string>)
    ensures StringsOf(items) == Some(strs) <==> Spells(items, strs)
  {
    if items == [] { return; }
    var n := |items| - 1;
    if strs != [] {
      StringsSpell(items[..n], strs[..|strs| - 1]);
      assert strs == strs[..|strs| - 1] + [strs[|strs| - 1]];
    }
  }

  /** A list of strings is read from exactly the typed list and the list of those strings, in order. */
  lemma ListsRead(v: Value, strs: seq<string>)
    ensures StringList(v) == Some(strs) <==> v == Strs(strs) || (v.List? && Spells(v.items, strs))
  {
    if v.List? { StringsSpell(v.items, strs); }
    hide StringsOf;
  }

  /** Entry `i` gives `key` this value, and no later entry gives it another. */
  predicate LastEntry(items: seq<Value>, i: nat, key: Key, value: string)
    requires i < |items|
  {
    Entry(items[i]) == Some((key, value)) && forall j | i < j < |items| :: Entry(items[j]).Some? ==> Entry(items[j]).value.0 != key
  }

  ghost predicate Gives(items: seq<Value>, key: Key, value: string) {
    exists i | 0 <= i < |items| :: LastEntry(items, i, key, value)
  }

  /** A list of `KEY=VALUE` texts is read as a map if and only if every item is such a text, and each key has the value of
      its last entry. */
  lemma {:induction false} EntriesRead(items: seq<Value>)
    ensures EntriesOf(items).Some? <==> forall i | 0 <= i < |items| :: Entry(items[i]).Some?
    ensures EntriesOf(items).Some? ==>
              forall key, value :: (key in EntriesOf(items).value && EntriesOf(items).value[key] == value)
                                   <==> Gives(items, key, value)
  {
    hide Entry;
    if items != [] {
      var n := |items| - 1;
      EntriesRead(items[..n]);
      if EntriesOf(items).Some? {
        forall key, value
          ensures Gives(items, key, value) <==>
                    if Entry(items[n]).value.0 == key then Entry(items[n]).value.1 == value else Gives(items[..n], key, value)
        {
          OneMoreEntry(items, key, value);
        }
        hide Gives;
      }
    }
  }

  lemma LastCounts(items: seq<Value>, key: Key, value: string)
    requires items != [] && Entry(items[|items| - 1]).Some? && Entry(items[|items| - 1]).value.0 == key
    ensures Gives(items, key, value) <==> Entry(items[|items| - 1]).value.1 == value
  {
    hide Entry;
    var n := |items| - 1;
    if Entry(items[n]).value.1 == value { assert LastEntry(items, n, key, value); }
    if i :| 0 <= i < |items| && LastEntry(items, i, key, value) {
      assert i == n;
    }
  }

  lemma EntryStays(items: seq<Value>, more: Value, i: nat, key: Key, value: string)
    requires i < |items| && Entry(more).Some? && Entry(more).value.0 != key
    ensures LastEntry(items + [more], i, key, value) <==> LastEntry(items, i, key, value)
  {
    hide Entry;
    var all := items + [more];
    assert all[i] == items[i] && all[|items|] == more;
    assert forall j | 0 <= j < |items| :: all[j] == items[j];
  }

  lemma LastPasses(items: seq<Value>, key: Key, value: string)
    requires items != [] && Entry(items[|items| - 1]).Some? && Entry(items[|items| - 1]).value.0 != key
    ensures Gives(items, key, value) <==> Gives(items[..|items| - 1], key, value)
  {
    hide Entry;
    var (init, last) := (items[..|items| - 1], items[|items| - 1]);
    assert items == init + [last];
    forall i | 0 <= i < |init| ensures LastEntry(items, i, key, value) <==> LastEntry(init, i, key, value) {
      EntryStays(init, last, i, key, value);
    }
    assert !LastEntry(items, |init|, key, value);
    hide LastEntry;
  }

  lemma OneMoreEntry(items: seq<Value>, key: Key, value: string)
    requires items != [] && Entry(items[|items| - 1]).Some?
    ensures var n := |items| - 1;
            Gives(items, key, value) <==>
              if Entry(items[n]).value.0 == key then Entry(items[n]).value.1 == value else Gives(items[..n], key, value)
  {
    hide Entry;
    if Entry(items[|items| - 1]).value.0 == key { LastCounts(items, key, value); } else { LastPasses(items, key, value); }
    hide Gives;
  }
}
