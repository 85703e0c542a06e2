/** How an agent resolves the context of a task from its payload and from a nested copy of an
    earlier resolution, and how it writes the result back into both. Texts prefer the payload,
    flags prefer the nested copy, lists and maps take the first that is not empty. */
module TaskContext {
  import opened Wrappers
  import opened Text
  import Ports

  /** A decoded payload value. `Items` is a decoded list, kept as the printed form of its
      elements; `Opaque` is any other value that is not nil. */
  datatype Value =
    | Null
    | Plain(text: string)
    | Flag(flag: bool)
    | Texts(items: seq<string>)
    | Items(shown: seq<string>)
    | TextMap(entries: map<string, string>)
    | Object(fields: map<string, Value>)
    | Opaque(shownAs: string)

  type Fields = map<string, Value>

  const NESTED := "resolved_context"

  /** The keys of a context by the kind of value they hold, and the other names a text goes by. */
  datatype Schema = Schema(
    texts: set<string>, lists: set<string>, maps: set<string>, flags: set<string>, aliases: map<string, seq<string>>)

  const TEXT_KEYS := {
    "task_scope", "runtime_instance_id", "runtime_binding_id", "runtime_template_id", "manifest_id",
    "manifest_version", "node_id", "model_id", "binding_mode", "runtime_kind", "template_type", "model_type",
    "model_format", "endpoint", "health_path", "model_path", "script_ref", "runtime_container_id"}

  const LIST_KEYS := {
    "exposed_ports", "required_env", "optional_env", "mount_points", "command_override", "binding_mount_rules",
    "supported_model_types", "supported_formats"}

  const MAP_KEYS := {"binding_env_overrides", "metadata"}

  const FLAG_KEYS := {"command_override_allowed", "script_mount_allowed"}

  const ALIASES := map[
    "template_type" := ["runtime_template_type"],
    "model_path" := ["path"],
    "runtime_container_id" := ["container_id", "container"]]

  const SCHEMA := Schema(TEXT_KEYS, LIST_KEYS, MAP_KEYS, FLAG_KEYS, ALIASES)

  function AliasesOf(s: Schema, key: string): seq<string> {
    if key in s.aliases then s.aliases[key] else []
  }

  function AllKeys(s: Schema): set<string> {
    s.texts + s.lists + s.maps + s.flags
  }

  predicate KindsApart(s: Schema) {
    && s.texts !! s.lists && s.texts !! s.maps && s.texts !! s.flags
    && s.lists !! s.maps && s.lists !! s.flags && s.maps !! s.flags
  }

  predicate KeysOk(s: Schema) {
    NESTED !in AllKeys(s) && forall k | k in AllKeys(s) :: k != "" && Trimmed(k)
  }

  predicate NoKey(s: Schema, a: string) {
    a !in AllKeys(s) && a != NESTED && a != "" && Trimmed(a)
  }

  predicate AliasesOk(s: Schema) {
    forall k, a | k in s.aliases && a in s.aliases[k] :: NoKey(s, a)
  }

  /** Kinds do not overlap, no key is the nested copy's, and aliases are not keys themselves. */
  ghost predicate ValidSchema(s: Schema) {
    && KindsApart(s) && KeysOk(s) && AliasesOk(s)
    && "task_scope" in s.texts && "task_scope" !in s.aliases
  }

  // ---- Reading ----

  /** What a value that is neither text nor flag prints as: some text with no blank edges. */
  ghost function Printed(v: Value): (s: string)
    ensures s != "" && Trimmed(s)
  {
    if v.Opaque? && v.shownAs != "" && Trimmed(v.shownAs) then v.shownAs
    else
      assert Trimmed("map[]");
      var s :| s != "" && Trimmed(s) && |[v]| == 1;
      s
  }

  ghost function Shown(v: Value): string {
    match v
    case Null => ""
    case Plain(text) => text
    case Flag(flag) => if flag then "true" else "false"
    case _ => Printed(v)
  }

  function At(f: Fields, key: string): Value {
    if key in f then f[key] else Null
  }

  function NestedFields(p: Fields): Fields {
    if At(p, NESTED).Object? then p[NESTED].fields else map[]
  }

  ghost function TextAt(f: Fields, key: string): string {
    Trim(Shown(At(f, key)))
  }

  ghost function Get(p: Fields, key: string): string {
    if TextAt(p, key) != "" then TextAt(p, key) else TextAt(NestedFields(p), key)
  }

  /** The first of some keys that reads as a text, from one place or from both. */
  ghost function FirstAt(f: Fields, keys: seq<string>): string {
    if keys == [] then "" else if TextAt(f, keys[0]) != "" then TextAt(f, keys[0]) else FirstAt(f, keys[1..])
  }

  ghost function FirstGet(p: Fields, keys: seq<string>): string {
    if keys == [] then "" else if Get(p, keys[0]) != "" then Get(p, keys[0]) else FirstGet(p, keys[1..])
  }

  function Cleaned(items: seq<string>): (r: seq<string>)
    ensures forall x | x in r :: x != "" && Trimmed(x)
  {
    if items == [] then []
    else
      TrimIsIdempotent(items[0]);
      (if Trim(items[0]) == "" then [] else [Trim(items[0])]) + Cleaned(items[1..])
  }

  /** Decoded nils print as "<nil>" and are dropped. */
  function WithoutNil(items: seq<string>): seq<string> {
    if items == [] then [] else (if Trim(items[0]) == "<nil>" then [] else [items[0]]) + WithoutNil(items[1..])
  }

  ghost function ListAt(f: Fields, key: string): seq<string> {
    match At(f, key)
    case Null => []
    case Texts(items) => Cleaned(items)
    case Items(shown) => Cleaned(WithoutNil(shown))
    case Plain(text) => Cleaned([text])
    case v => Cleaned(WithoutNil([Shown(v)]))
  }

  ghost function ListFor(p: Fields, key: string): seq<string> {
    if ListAt(p, key) != [] then ListAt(p, key) else ListAt(NestedFields(p), key)
  }

  /** Trims the keys of a map; of several keys that trim to one, any may win. */
  ghost function TrimKeys<V>(m: map<string, V>): map<string, V> {
    map t | t in (set k | k in m && Trim(k) != "" :: Trim(k)) :: m[SourceKey(m, t)]
  }

  ghost function SourceKey<V>(m: map<string, V>, t: string): (k: string)
    requires exists k :: k in m && Trim(k) == t
    ensures k in m && Trim(k) == t
  {
    var k :| k in m && Trim(k) == t;
    k
  }

  function TrimValues(m: map<string, string>): map<string, string> {
    map k | k in m :: Trim(m[k])
  }

  ghost function Printable(f: Fields): map<string, string> {
    map k | k in f && Trim(Shown(f[k])) != "" && Trim(Shown(f[k])) != "<nil>" :: Trim(Shown(f[k]))
  }

  ghost function MapAt(f: Fields, key: string): map<string, string> {
    match At(f, key)
    case TextMap(entries) => TrimKeys(TrimValues(entries))
    case Object(fields) => TrimKeys(Printable(fields))
    case _ => map[]
  }

  ghost function MapFor(p: Fields, key: string): map<string, string> {
    if MapAt(p, key) != map[] then MapAt(p, key) else MapAt(NestedFields(p), key)
  }

  ghost function FlagAt(f: Fields, key: string): Option<bool> {
    match At(f, key)
    case Null => None
    case Flag(flag) => Some(flag)
    case v =>
      var word := Ports.Lower(Trim(Shown(v)));
      if word in ["1", "true", "yes", "on"] then Some(true)
      else if word in ["0", "false", "no", "off"] then Some(false)
      else None
  }

  ghost function FlagFor(p: Fields, key: string): Option<bool> {
    if FlagAt(NestedFields(p), key).Some? then FlagAt(NestedFields(p), key) else FlagAt(p, key)
  }

  // ---- Resolving ----

  /** A context: only what is not empty. */
  datatype Context = Context(
    texts: map<string, string>, lists: map<string, seq<string>>, maps: map<string, map<string, string>>,
    flags: map<string, bool>)

  ghost function FoundTexts(s: Schema, p: Fields): map<string, string> {
    map k | k in s.texts && FirstGet(p, [k] + AliasesOf(s, k)) != "" :: FirstGet(p, [k] + AliasesOf(s, k))
  }

  ghost function FoundLists(s: Schema, p: Fields): map<string, seq<string>> {
    map k | k in s.lists && ListFor(p, k) != [] :: ListFor(p, k)
  }

  ghost function FoundMaps(s: Schema, p: Fields): map<string, map<string, string>> {
    map k | k in s.maps && MapFor(p, k) != map[] :: MapFor(p, k)
  }

  ghost function FoundFlags(s: Schema, p: Fields): map<string, bool> {
    map k | k in s.flags && FlagFor(p, k).Some? :: FlagFor(p, k).value
  }

  ghost function Found(s: Schema, p: Fields): Context {
    Context(FoundTexts(s, p), FoundLists(s, p), FoundMaps(s, p), FoundFlags(s, p))
  }

  function Scoped(c: Context): Context {
    if "task_scope" in c.texts then c
    else c.(texts := c.texts["task_scope" :=
             if "runtime_instance_id" in c.texts then "runtime_instance" else "legacy_model_or_node"])
  }

  const REQUIRED := ["runtime_instance_id", "runtime_binding_id", "runtime_template_id", "manifest_id"]

  function MissingOf(c: Context, fields: seq<string>): seq<string> {
    if fields == [] then []
    else (if fields[0] in c.texts then [] else [fields[0]]) + MissingOf(c, fields[1..])
  }

  function MissingFields(c: Context): seq<string> {
    if "task_scope" in c.texts && c.texts["task_scope"] == "runtime_instance" then MissingOf(c, REQUIRED) else []
  }

  datatype Resolution = Resolved(context: Context) | MissingContext(fields: seq<string>)

  ghost function Resolve(s: Schema, p: Fields): Resolution {
    var c := Scoped(Found(s, p));
    if MissingFields(c) != [] then MissingContext(MissingFields(c)) else Resolved(c)
  }

  // ---- Applying ----

  function Keys(c: Context): set<string> {
    c.texts.Keys + c.lists.Keys + c.maps.Keys + c.flags.Keys
  }

  function ValueOf(c: Context, key: string): Value
    requires key in Keys(c)
  {
    if key in c.texts then Plain(c.texts[key])
    else if key in c.lists then Texts(c.lists[key])
    else if key in c.maps then TextMap(c.maps[key])
    else Flag(c.flags[key])
  }

  function ToPayloadMap(c: Context): Fields {
    map k | k in Keys(c) :: ValueOf(c, k)
  }

  /** One of the maps that trimming the keys of `m` can give: of several keys that trim to one, any
      may win. */
  ghost predicate TrimmingOf<V>(m: map<string, V>, t: map<string, V>) {
    && (forall k | k in m && Trim(k) != "" :: Trim(k) in t)
    && (forall k | k in t :: k != "" && exists o :: o in m && Trim(o) == k && t[k] == m[o])
  }

  /** A context written into a payload and into its nested copy, whose keys were trimmed to `tidied`. */
  ghost function Applied(p: Fields, c: Context, tidied: Fields): Fields {
    (p + ToPayloadMap(c))[NESTED := Object(tidied + ToPayloadMap(c))]
  }

  // ---- Reading back what was written ----

  lemma {:induction false} CleanedTwice(items: seq<string>)
    requires forall x | x in items :: x != "" && Trimmed(x)
    ensures Cleaned(items) == items
  {
    if items != [] {
      assert items[0] in items && items == [items[0]] + items[1..];
      assert forall x | x in items[1..] :: x in items;
      CleanedTwice(items[1..]);
    }
  }

  ghost predicate TrimmedKeys<V>(m: map<string, V>) {
    forall k | k in m :: Trimmed(k)
  }

  lemma TrimKeysIsIdentity<V>(m: map<string, V>)
    requires TrimmedKeys(m) && "" !in m
    ensures TrimKeys(m) == m
  {
    forall k | k in m ensures k in TrimKeys(m) && TrimKeys(m)[k] == m[k] {
      assert Trim(k) == k;
    }
  }

  ghost predicate Normal(m: map<string, string>) {
    TrimmedKeys(m) && "" !in m && forall k | k in m :: Trimmed(m[k])
  }

  lemma NormalReadsBack(f: Fields, key: string, m: map<string, string>)
    requires Normal(m) && At(f, key) == TextMap(m)
    ensures MapAt(f, key) == m
  {
    assert TrimValues(m) == m;
    TrimKeysIsIdentity(m);
  }

  lemma TrimmedAfterTrimKeys<V>(m: map<string, V>)
    ensures TrimmedKeys(TrimKeys(m)) && "" !in TrimKeys(m)
  {
    forall t | t in TrimKeys(m) ensures Trimmed(t) && t != "" {
      var k :| k in m && Trim(k) == t && t != "";
      TrimIsIdempotent(k);
    }
  }

  lemma TrimKeysOfTrimmedIsNormal(m: map<string, string>)
    requires forall k | k in m :: Trimmed(m[k])
    ensures Normal(TrimKeys(m))
  {
    TrimmedAfterTrimKeys(m);
  }

  lemma TextMapIsNormal(entries: map<string, string>)
    ensures Normal(TrimKeys(TrimValues(entries)))
  {
    forall k | k in entries ensures Trimmed(Trim(entries[k])) {
      TrimIsIdempotent(entries[k]);
    }
    TrimKeysOfTrimmedIsNormal(TrimValues(entries));
  }

  lemma ObjectIsNormal(fields: Fields)
    ensures Normal(TrimKeys(Printable(fields)))
  {
    forall k | k in fields ensures Trimmed(Trim(Shown(fields[k]))) {
      TrimIsIdempotent(Shown(fields[k]));
    }
    TrimKeysOfTrimmedIsNormal(Printable(fields));
  }

  lemma MapAtIsNormal(f: Fields, key: string)
    ensures Normal(MapAt(f, key))
  {
    match At(f, key)
    case TextMap(entries) => TextMapIsNormal(entries);
    case Object(fields) => ObjectIsNormal(fields);
    case _ =>
  }

  /** A context only holds what the schema knows, in the form it is written. */
  ghost predicate Fits(s: Schema, c: Context) {
    && c.texts.Keys <= s.texts && c.lists.Keys <= s.lists && c.maps.Keys <= s.maps && c.flags.Keys <= s.flags
    && (forall k | k in c.texts :: c.texts[k] != "" && Trimmed(c.texts[k]))
    && (forall k | k in c.lists :: c.lists[k] != [] && forall x | x in c.lists[k] :: x != "" && Trimmed(x))
    && (forall k | k in c.maps :: c.maps[k] != map[] && Normal(c.maps[k]))
  }

  lemma {:induction false} FirstGetIsTrimmed(p: Fields, keys: seq<string>)
    ensures Trimmed(FirstGet(p, keys))
  {
    if keys != [] {
      TrimIsIdempotent(Shown(At(p, keys[0])));
      TrimIsIdempotent(Shown(At(NestedFields(p), keys[0])));
      FirstGetIsTrimmed(p, keys[1..]);
    } else {
      assert Trim("") == "";
    }
  }

  lemma FoundFits(s: Schema, p: Fields)
    ensures Fits(s, Found(s, p))
  {
    var c := Found(s, p);
    forall k | k in c.texts ensures Trimmed(c.texts[k]) {
      FirstGetIsTrimmed(p, [k] + AliasesOf(s, k));
    }
    forall k | k in c.maps ensures Normal(c.maps[k]) {
      MapForIsNormal(p, k);
    }
    forall k | k in c.lists ensures forall x | x in c.lists[k] :: x != "" && Trimmed(x) {
      ListForIsClean(p, k);
    }
  }

  lemma MapForIsNormal(p: Fields, key: string)
    ensures Normal(MapFor(p, key))
  {
    MapAtIsNormal(p, key);
    MapAtIsNormal(NestedFields(p), key);
  }

  lemma ListForIsClean(p: Fields, key: string)
    ensures forall x | x in ListFor(p, key) :: x != "" && Trimmed(x)
  {
  }

  lemma ScopedFits(s: Schema, c: Context)
    requires ValidSchema(s) && Fits(s, c)
    ensures Fits(s, Scoped(c)) && "task_scope" in Scoped(c).texts
  {
    Ports.TrimUnchanged("runtime_instance");
    Ports.TrimUnchanged("legacy_model_or_node");
    if "task_scope" !in c.texts {
      var scope := if "runtime_instance_id" in c.texts then "runtime_instance" else "legacy_model_or_node";
      AddedTextFits(s, c, "task_scope", scope);
    }
  }

  lemma AddedTextFits(s: Schema, c: Context, key: string, text: string)
    requires Fits(s, c) && key in s.texts && text != "" && Trimmed(text)
    ensures Fits(s, c.(texts := c.texts[key := text]))
  {
  }

  /** Outside the written keys a payload keeps its values, and its nested copy those of the
      former nested copy with the keys trimmed. */
  lemma AppliedAt(p: Fields, c: Context, tidied: Fields, key: string)
    requires key != NESTED
    ensures At(Applied(p, c, tidied), key) == if key in ToPayloadMap(c) then ToPayloadMap(c)[key] else At(p, key)
    ensures At(NestedFields(Applied(p, c, tidied)), key)
         == if key in ToPayloadMap(c) then ToPayloadMap(c)[key] else At(tidied, key)
  {
  }

  // ---- Resolving again ----

  ghost predicate QuietTexts(s: Schema, tidied: Fields, c: Context) {
    forall k | k in s.texts && k !in c.texts :: FirstAt(tidied, [k] + AliasesOf(s, k)) == ""
  }

  ghost predicate QuietLists(s: Schema, tidied: Fields, c: Context) {
    forall k | k in s.lists && k !in c.lists :: ListAt(tidied, k) == []
  }

  ghost predicate QuietMaps(s: Schema, tidied: Fields, c: Context) {
    forall k | k in s.maps && k !in c.maps :: MapAt(tidied, k) == map[]
  }

  ghost predicate QuietFlags(s: Schema, tidied: Fields, c: Context) {
    forall k | k in s.flags && k !in c.flags :: FlagAt(tidied, k).None?
  }

  /** Nothing the context lacks shows up once the nested keys are trimmed. */
  ghost predicate Quiet(s: Schema, tidied: Fields, c: Context) {
    QuietTexts(s, tidied, c) && QuietLists(s, tidied, c) && QuietMaps(s, tidied, c) && QuietFlags(s, tidied, c)
  }

  /** Keys that were not written read as they did, in the payload and in the tidied copy. */
  lemma {:induction false} UnwrittenText(p: Fields, c: Context, tidied: Fields, keys: seq<string>)
    requires forall k | k in keys :: k != NESTED && k !in Keys(c)
    requires FirstGet(p, keys) == ""
    ensures FirstGet(Applied(p, c, tidied), keys) == FirstAt(tidied, keys)
  {
    if keys != [] {
      assert keys[0] in keys && forall k | k in keys[1..] :: k in keys;
      AppliedAt(p, c, tidied, keys[0]);
      UnwrittenText(p, c, tidied, keys[1..]);
    }
  }

  lemma UnwrittenKeys(s: Schema, c: Context, key: string)
    requires ValidSchema(s) && Fits(s, c) && key in s.texts && key !in c.texts
    ensures forall k | k in [key] + AliasesOf(s, key) :: k != NESTED && k !in Keys(c)
  {
    assert key in AllKeys(s) && key !in Keys(c);
    var keys := [key] + AliasesOf(s, key);
    forall i | 0 <= i < |keys| ensures keys[i] != NESTED && keys[i] !in Keys(c) {
      if i > 0 {
        var alias := AliasesOf(s, key)[i - 1];
        assert keys[i] == alias;
        assert key in s.aliases && alias in s.aliases[key];
        assert NoKey(s, alias);
      }
    }
  }

  lemma WrittenTextReadsBack(p: Fields, c: Context, tidied: Fields, key: string, rest: seq<string>)
    requires key in c.texts && c.texts[key] != "" && Trimmed(c.texts[key]) && key != NESTED
    ensures FirstGet(Applied(p, c, tidied), [key] + rest) == c.texts[key]
  {
    AppliedAt(p, c, tidied, key);
    assert ([key] + rest)[0] == key;
  }

  lemma TextAfter(s: Schema, p: Fields, c: Context, tidied: Fields, key: string)
    requires ValidSchema(s) && Fits(s, c) && key in s.texts
    requires key !in c.texts ==> FirstGet(p, [key] + AliasesOf(s, key)) == ""
    ensures FirstGet(Applied(p, c, tidied), [key] + AliasesOf(s, key))
         == if key in c.texts then c.texts[key] else FirstAt(tidied, [key] + AliasesOf(s, key))
  {
    if key in c.texts {
      assert key in AllKeys(s);
      WrittenTextReadsBack(p, c, tidied, key, AliasesOf(s, key));
    } else {
      UnwrittenKeys(s, c, key);
      UnwrittenText(p, c, tidied, [key] + AliasesOf(s, key));
    }
  }

  lemma ListAfter(s: Schema, p: Fields, c: Context, tidied: Fields, key: string)
    requires ValidSchema(s) && Fits(s, c) && key in s.lists
    requires key !in c.lists ==> ListFor(p, key) == []
    ensures ListFor(Applied(p, c, tidied), key) == if key in c.lists then c.lists[key] else ListAt(tidied, key)
  {
    AppliedAt(p, c, tidied, key);
    if key in c.lists {
      CleanedTwice(c.lists[key]);
    }
  }

  lemma WrittenMapReadsBack(s: Schema, p: Fields, c: Context, tidied: Fields, key: string)
    requires ValidSchema(s) && Fits(s, c) && key in c.maps
    ensures MapFor(Applied(p, c, tidied), key) == c.maps[key]
  {
    AppliedAt(p, c, tidied, key);
    NormalReadsBack(Applied(p, c, tidied), key, c.maps[key]);
  }

  lemma MapAtIsOfValue(f: Fields, g: Fields, a: string, b: string)
    requires At(f, a) == At(g, b)
    ensures MapAt(f, a) == MapAt(g, b)
  {
  }

  lemma MapAfter(s: Schema, p: Fields, c: Context, tidied: Fields, key: string)
    requires ValidSchema(s) && Fits(s, c) && key in s.maps
    requires key !in c.maps ==> MapFor(p, key) == map[]
    ensures MapFor(Applied(p, c, tidied), key) == if key in c.maps then c.maps[key] else MapAt(tidied, key)
  {
    if key in c.maps {
      WrittenMapReadsBack(s, p, c, tidied, key);
    } else {
      AppliedAt(p, c, tidied, key);
      MapAtIsOfValue(Applied(p, c, tidied), p, key, key);
      MapAtIsOfValue(NestedFields(Applied(p, c, tidied)), tidied, key, key);
    }
  }

  lemma FlagAtIsOfValue(f: Fields, g: Fields, key: string)
    requires At(f, key) == At(g, key)
    ensures FlagAt(f, key) == FlagAt(g, key)
  {
  }

  lemma WrittenFlagReadsBack(p: Fields, c: Context, tidied: Fields, key: string)
    requires key in c.flags && key !in c.texts && key !in c.lists && key !in c.maps && key != NESTED
    ensures FlagFor(Applied(p, c, tidied), key) == Some(c.flags[key])
  {
    AppliedAt(p, c, tidied, key);
  }

  lemma FlagAfter(s: Schema, p: Fields, c: Context, tidied: Fields, key: string)
    requires ValidSchema(s) && Fits(s, c) && key in s.flags
    requires key !in c.flags ==> FlagFor(p, key).None?
    ensures FlagFor(Applied(p, c, tidied), key)
         == if key in c.flags then Some(c.flags[key]) else FlagAt(tidied, key)
  {
    if key in c.flags {
      WrittenFlagReadsBack(p, c, tidied, key);
    } else {
      AppliedAt(p, c, tidied, key);
      FlagAtIsOfValue(Applied(p, c, tidied), p, key);
      FlagAtIsOfValue(NestedFields(Applied(p, c, tidied)), tidied, key);
    }
  }

  /** The context holds everything the payload shows. */
  ghost predicate Covers(s: Schema, p: Fields, c: Context) {
    && (forall k | k in s.texts && k !in c.texts :: FirstGet(p, [k] + AliasesOf(s, k)) == "")
    && (forall k | k in s.lists && k !in c.lists :: ListFor(p, k) == [])
    && (forall k | k in s.maps && k !in c.maps :: MapFor(p, k) == map[])
    && (forall k | k in s.flags && k !in c.flags :: FlagFor(p, k).None?)
  }

  /** A key is found again with its value, or newly if it is revealed, or not at all. */
  ghost predicate Again<V>(found: map<string, V>, known: map<string, V>, revealed: set<string>, key: string) {
    && (key in found <==> key in known || key in revealed)
    && (key in known ==> key in found && found[key] == known[key])
  }

  lemma SameIffNothingRevealed<V>(found: map<string, V>, known: map<string, V>, keys: set<string>, revealed: set<string>)
    requires found.Keys <= keys && known.Keys <= keys && revealed <= keys && revealed !! known.Keys
    requires forall k | k in keys :: Again(found, known, revealed, k)
    ensures found == known <==> revealed == {}
  {
    if revealed == {} {
      forall k ensures k in found <==> k in known {
        assert k in keys ==> Again(found, known, revealed, k);
      }
      forall k | k in known ensures found[k] == known[k] {
        assert Again(found, known, revealed, k);
      }
    } else {
      var k :| k in revealed;
      assert Again(found, known, revealed, k);
    }
  }

  lemma TextsAgainIff(s: Schema, p: Fields, c: Context, tidied: Fields)
    requires ValidSchema(s) && Fits(s, c) && Covers(s, p, c)
    ensures FoundTexts(s, Applied(p, c, tidied)) == c.texts <==> QuietTexts(s, tidied, c)
  {
    var revealed := set k | k in s.texts && k !in c.texts && FirstAt(tidied, [k] + AliasesOf(s, k)) != "";
    forall k | k in s.texts ensures Again(FoundTexts(s, Applied(p, c, tidied)), c.texts, revealed, k) {
      TextAfter(s, p, c, tidied, k);
    }
    SameIffNothingRevealed(FoundTexts(s, Applied(p, c, tidied)), c.texts, s.texts, revealed);
  }

  lemma ListsAgainIff(s: Schema, p: Fields, c: Context, tidied: Fields)
    requires ValidSchema(s) && Fits(s, c) && Covers(s, p, c)
    ensures FoundLists(s, Applied(p, c, tidied)) == c.lists <==> QuietLists(s, tidied, c)
  {
    var revealed := set k | k in s.lists && k !in c.lists && ListAt(tidied, k) != [];
    forall k | k in s.lists ensures Again(FoundLists(s, Applied(p, c, tidied)), c.lists, revealed, k) {
      ListAfter(s, p, c, tidied, k);
    }
    SameIffNothingRevealed(FoundLists(s, Applied(p, c, tidied)), c.lists, s.lists, revealed);
  }

  lemma MapsAgainIff(s: Schema, p: Fields, c: Context, tidied: Fields)
    requires ValidSchema(s) && Fits(s, c) && Covers(s, p, c)
    ensures FoundMaps(s, Applied(p, c, tidied)) == c.maps <==> QuietMaps(s, tidied, c)
  {
    var revealed := set k | k in s.maps && k !in c.maps && MapAt(tidied, k) != map[];
    forall k | k in s.maps ensures Again(FoundMaps(s, Applied(p, c, tidied)), c.maps, revealed, k) {
      MapAfter(s, p, c, tidied, k);
    }
    SameIffNothingRevealed(FoundMaps(s, Applied(p, c, tidied)), c.maps, s.maps, revealed);
  }

  lemma FlagsAgainIff(s: Schema, p: Fields, c: Context, tidied: Fields)
    requires ValidSchema(s) && Fits(s, c) && Covers(s, p, c)
    ensures FoundFlags(s, Applied(p, c, tidied)) == c.flags <==> QuietFlags(s, tidied, c)
  {
    var revealed := set k | k in s.flags && k !in c.flags && FlagAt(tidied, k).Some?;
    forall k | k in s.flags ensures Again(FoundFlags(s, Applied(p, c, tidied)), c.flags, revealed, k) {
      FlagAfter(s, p, c, tidied, k);
    }
    SameIffNothingRevealed(FoundFlags(s, Applied(p, c, tidied)), c.flags, s.flags, revealed);
  }

  lemma FoundAgainIff(s: Schema, p: Fields, c: Context, tidied: Fields)
    requires ValidSchema(s) && Fits(s, c) && Covers(s, p, c)
    ensures Found(s, Applied(p, c, tidied)) == c <==> Quiet(s, tidied, c)
  {
    TextsAgainIff(s, p, c, tidied);
    ListsAgainIff(s, p, c, tidied);
    MapsAgainIff(s, p, c, tidied);
    FlagsAgainIff(s, p, c, tidied);
  }

  lemma FoundCovers(s: Schema, p: Fields)
    requires ValidSchema(s)
    ensures Covers(s, p, Found(s, p)) && Covers(s, p, Scoped(Found(s, p)))
  {
  }

  /** Once a context has a scope, resolving depends only on what is found. */
  lemma ScopedResolution(s: Schema, p: Fields, c: Context)
    requires "task_scope" in c.texts && "task_scope" in Found(s, p).texts && MissingFields(c) == []
    ensures Resolve(s, p) == Resolved(c) <==> Found(s, p) == c
  {
  }

  lemma ScopeIsFoundAgain(s: Schema, p: Fields, c: Context, tidied: Fields)
    requires ValidSchema(s) && Fits(s, c) && Covers(s, p, c) && "task_scope" in c.texts
    ensures "task_scope" in FoundTexts(s, Applied(p, c, tidied))
  {
    TextAfter(s, p, c, tidied, "task_scope");
  }

  /** For one way to trim the nested keys: resolving again gives the same context exactly when the
      trimmed copy shows nothing the context lacks. */
  lemma ProjectionForTrimming(s: Schema, p: Fields, tidied: Fields)
    requires ValidSchema(s) && Resolve(s, p).Resolved?
    ensures var c := Resolve(s, p).context;
            Resolve(s, Applied(p, c, tidied)) == Resolved(c) <==> Quiet(s, tidied, c)
  {
    var c := Resolve(s, p).context;
    FoundFits(s, p);
    ScopedFits(s, Found(s, p));
    FoundCovers(s, p);
    ScopeIsFoundAgain(s, p, c, tidied);
    ScopedResolution(s, Applied(p, c, tidied), c);
    FoundAgainIff(s, p, c, tidied);
  }

  // ---- What can be revealed, read off the payload ----

  /** The names a text goes by. */
  function Names(s: Schema, key: string): seq<string> {
    [key] + AliasesOf(s, key)
  }

  /** No text is read under a key, yet the nested copy carries one under a name with blanks
      around it. */
  ghost predicate HiddenText(s: Schema, p: Fields, key: string) {
    && FirstGet(p, Names(s, key)) == ""
    && exists o :: o in NestedFields(p) && Trim(o) in Names(s, key) && TextAt(NestedFields(p), o) != ""
  }

  ghost predicate HiddenList(p: Fields, key: string) {
    ListFor(p, key) == [] && exists o :: o in NestedFields(p) && Trim(o) == key && ListAt(NestedFields(p), o) != []
  }

  ghost predicate HiddenMap(p: Fields, key: string) {
    MapFor(p, key) == map[] && exists o :: o in NestedFields(p) && Trim(o) == key && MapAt(NestedFields(p), o) != map[]
  }

  ghost predicate HiddenFlag(p: Fields, key: string) {
    FlagFor(p, key).None? && exists o :: o in NestedFields(p) && Trim(o) == key && FlagAt(NestedFields(p), o).Some?
  }

  /** No key that reads as nothing has a value in the nested copy under a padded name. The scope is
      always written back, so what is hidden under it does not matter. */
  ghost predicate NothingHidden(s: Schema, p: Fields) {
    && (forall k | k in s.texts && k != "task_scope" :: !HiddenText(s, p, k))
    && (forall k | k in s.lists :: !HiddenList(p, k))
    && (forall k | k in s.maps :: !HiddenMap(p, k))
    && (forall k | k in s.flags :: !HiddenFlag(p, k))
  }

  lemma {:induction false} FirstAtIff(f: Fields, keys: seq<string>)
    ensures FirstAt(f, keys) != "" <==> exists k :: k in keys && TextAt(f, k) != ""
  {
    if keys != [] {
      FirstAtIff(f, keys[1..]);
      assert keys == [keys[0]] + keys[1..];
      assert forall k :: k in keys <==> k == keys[0] || k in keys[1..];
    }
  }

  /** What a trimmed copy shows under a key comes from a nested key that trims to it. */
  lemma TrimmedFrom(n: Fields, tidied: Fields, key: string) returns (o: string)
    requires TrimmingOf(n, tidied) && At(tidied, key) != Null
    ensures o in n && Trim(o) == key && At(tidied, key) == n[o]
  {
    o :| o in n && Trim(o) == key && tidied[key] == n[o];
  }

  lemma TextAtIsOfValue(f: Fields, g: Fields, a: string, b: string)
    requires At(f, a) == At(g, b)
    ensures TextAt(f, a) == TextAt(g, b) && ListAt(f, a) == ListAt(g, b)
    ensures FlagAt(f, a) == FlagAt(g, b)
  {
  }

  lemma UnhiddenTextIsQuiet(s: Schema, p: Fields, tidied: Fields, key: string)
    requires TrimmingOf(NestedFields(p), tidied) && FirstGet(p, Names(s, key)) == "" && !HiddenText(s, p, key)
    ensures FirstAt(tidied, Names(s, key)) == ""
  {
    var n := NestedFields(p);
    FirstAtIff(tidied, Names(s, key));
    assert Trim("") == "";
    if k :| k in Names(s, key) && TextAt(tidied, k) != "" {
      var o := TrimmedFrom(n, tidied, k);
      TextAtIsOfValue(tidied, n, k, o);
    }
  }

  lemma UnhiddenListIsQuiet(p: Fields, tidied: Fields, key: string)
    requires TrimmingOf(NestedFields(p), tidied) && ListFor(p, key) == [] && !HiddenList(p, key)
    ensures ListAt(tidied, key) == []
  {
    if ListAt(tidied, key) != [] {
      var o := TrimmedFrom(NestedFields(p), tidied, key);
      TextAtIsOfValue(tidied, NestedFields(p), key, o);
    }
  }

  lemma UnhiddenMapIsQuiet(p: Fields, tidied: Fields, key: string)
    requires TrimmingOf(NestedFields(p), tidied) && MapFor(p, key) == map[] && !HiddenMap(p, key)
    ensures MapAt(tidied, key) == map[]
  {
    if MapAt(tidied, key) != map[] {
      var o := TrimmedFrom(NestedFields(p), tidied, key);
      MapAtIsOfValue(tidied, NestedFields(p), key, o);
    }
  }

  lemma UnhiddenFlagIsQuiet(p: Fields, tidied: Fields, key: string)
    requires TrimmingOf(NestedFields(p), tidied) && FlagFor(p, key).None? && !HiddenFlag(p, key)
    ensures FlagAt(tidied, key).None?
  {
    if FlagAt(tidied, key).Some? {
      var o := TrimmedFrom(NestedFields(p), tidied, key);
      TextAtIsOfValue(tidied, NestedFields(p), key, o);
    }
  }

  /** What the first resolution lacks, in terms of the payload. */
  lemma LacksWhatReadsAsNothing(s: Schema, p: Fields, key: string)
    requires Resolve(s, p).Resolved?
    ensures var c := Resolve(s, p).context;
            && (key in s.texts ==> (key !in c.texts <==> key != "task_scope" && FirstGet(p, Names(s, key)) == ""))
            && (key in s.lists ==> (key !in c.lists <==> ListFor(p, key) == []))
            && (key in s.maps ==> (key !in c.maps <==> MapFor(p, key) == map[]))
            && (key in s.flags ==> (key !in c.flags <==> FlagFor(p, key).None?))
  {
  }

  lemma UnhiddenIsQuiet(s: Schema, p: Fields, tidied: Fields)
    requires Resolve(s, p).Resolved? && TrimmingOf(NestedFields(p), tidied) && NothingHidden(s, p)
    ensures Quiet(s, tidied, Resolve(s, p).context)
  {
    var c := Resolve(s, p).context;
    forall k | k in s.texts && k !in c.texts ensures FirstAt(tidied, Names(s, k)) == "" {
      LacksWhatReadsAsNothing(s, p, k);
      UnhiddenTextIsQuiet(s, p, tidied, k);
    }
    forall k | k in s.lists && k !in c.lists ensures ListAt(tidied, k) == [] {
      LacksWhatReadsAsNothing(s, p, k);
      UnhiddenListIsQuiet(p, tidied, k);
    }
    forall k | k in s.maps && k !in c.maps ensures MapAt(tidied, k) == map[] {
      LacksWhatReadsAsNothing(s, p, k);
      UnhiddenMapIsQuiet(p, tidied, k);
    }
    forall k | k in s.flags && k !in c.flags ensures FlagAt(tidied, k).None? {
      LacksWhatReadsAsNothing(s, p, k);
      UnhiddenFlagIsQuiet(p, tidied, k);
    }
  }

  /** A trimming in which a given nested key wins. */
  ghost function Winning(n: Fields, o: string): (t: Fields)
    requires o in n && Trim(o) != ""
    ensures TrimmingOf(n, t) && At(t, Trim(o)) == n[o]
  {
    TrimKeysIsTrimming(n);
    TrimKeys(n)[Trim(o) := n[o]]
  }

  lemma TrimKeysIsTrimming(n: Fields)
    ensures TrimmingOf(n, TrimKeys(n))
  {
    forall k | k in TrimKeys(n) ensures k != "" && exists o :: o in n && Trim(o) == k && TrimKeys(n)[k] == n[o] {
      assert SourceKey(n, k) in n;
    }
  }

  /** The value a hidden key carries shows when that key wins. */
  lemma HiddenShows(s: Schema, p: Fields) returns (tidied: Fields)
    requires ValidSchema(s) && Resolve(s, p).Resolved? && !NothingHidden(s, p)
    ensures TrimmingOf(NestedFields(p), tidied) && !Quiet(s, tidied, Resolve(s, p).context)
  {
    var n := NestedFields(p);
    if k :| k in s.texts && k != "task_scope" && HiddenText(s, p, k) {
      tidied := HiddenTextShows(s, p, k);
    } else if k :| k in s.lists && HiddenList(p, k) {
      var o :| o in n && Trim(o) == k && ListAt(n, o) != [];
      assert k in AllKeys(s);
      tidied := Winning(n, o);
      TextAtIsOfValue(tidied, n, k, o);
      LacksWhatReadsAsNothing(s, p, k);
    } else if k :| k in s.maps && HiddenMap(p, k) {
      var o :| o in n && Trim(o) == k && MapAt(n, o) != map[];
      assert k in AllKeys(s);
      tidied := Winning(n, o);
      MapAtIsOfValue(tidied, n, k, o);
      LacksWhatReadsAsNothing(s, p, k);
    } else {
      var k :| k in s.flags && HiddenFlag(p, k);
      var o :| o in n && Trim(o) == k && FlagAt(n, o).Some?;
      assert k in AllKeys(s);
      tidied := Winning(n, o);
      TextAtIsOfValue(tidied, n, k, o);
      LacksWhatReadsAsNothing(s, p, k);
    }
  }

  lemma HiddenTextShows(s: Schema, p: Fields, key: string) returns (tidied: Fields)
    requires ValidSchema(s) && Resolve(s, p).Resolved?
    requires key in s.texts && key != "task_scope" && HiddenText(s, p, key)
    ensures TrimmingOf(NestedFields(p), tidied) && !Quiet(s, tidied, Resolve(s, p).context)
  {
    var n := NestedFields(p);
    var o :| o in n && Trim(o) in Names(s, key) && TextAt(n, o) != "";
    assert key in AllKeys(s);
    KeysAreNotBlank(s, key);
    tidied := Winning(n, o);
    TextAtIsOfValue(tidied, n, Trim(o), o);
    FirstAtIff(tidied, Names(s, key));
    LacksWhatReadsAsNothing(s, p, key);
  }

  /** Resolving, writing back and resolving again gives the same context, in whatever order the
      nested copy is walked, exactly when no value hides there under a padded key of something that
      reads as nothing. */
  lemma ProjectionIff(s: Schema, p: Fields)
    requires ValidSchema(s) && Resolve(s, p).Resolved?
    ensures (forall tidied | TrimmingOf(NestedFields(p), tidied) ::
               Resolve(s, Applied(p, Resolve(s, p).context, tidied)) == Resolve(s, p))
       <==> NothingHidden(s, p)
  {
    if NothingHidden(s, p) {
      forall tidied | TrimmingOf(NestedFields(p), tidied)
        ensures Resolve(s, Applied(p, Resolve(s, p).context, tidied)) == Resolve(s, p)
      {
        UnhiddenIsQuiet(s, p, tidied);
        ProjectionForTrimming(s, p, tidied);
      }
    } else {
      var tidied := HiddenShows(s, p);
      ProjectionForTrimming(s, p, tidied);
    }
  }

  lemma KeysAreNotBlank(s: Schema, key: string)
    requires ValidSchema(s) && key in AllKeys(s)
    ensures forall k | k in Names(s, key) :: k != ""
  {
    assert key != "";
    var keys := Names(s, key);
    forall i | 0 <= i < |keys| ensures keys[i] != "" {
      if i > 0 {
        var alias := AliasesOf(s, key)[i - 1];
        assert keys[i] == alias;
        assert key in s.aliases && alias in s.aliases[key];
        assert NoKey(s, alias);
      }
    }
  }

  lemma {:induction false} NothingNested(p: Fields, keys: seq<string>, key: string)
    requires FirstGet(p, keys) == "" && key in keys
    ensures TextAt(NestedFields(p), key) == ""
  {
    if key != keys[0] {
      NothingNested(p, keys[1..], key);
    }
  }

  lemma TrimmedKeysHideNothing(s: Schema, p: Fields)
    requires TrimmedKeys(NestedFields(p))
    ensures NothingHidden(s, p)
  {
    var n := NestedFields(p);
    assert forall o | o in n :: Trim(o) == o;
    forall k | k in s.texts ensures !HiddenText(s, p, k) {
      if HiddenText(s, p, k) {
        var o :| o in n && Trim(o) in Names(s, k) && TextAt(n, o) != "";
        NothingNested(p, Names(s, k), o);
      }
    }
  }

  /** The law itself: for payloads whose nested keys carry no blanks around them, resolving is a
      projection. */
  lemma ResolvingIsAProjection(s: Schema, p: Fields, tidied: Fields)
    requires ValidSchema(s) && TrimmedKeys(NestedFields(p)) && Resolve(s, p).Resolved?
    requires TrimmingOf(NestedFields(p), tidied)
    ensures Resolve(s, Applied(p, Resolve(s, p).context, tidied)) == Resolve(s, p)
  {
    TrimmedKeysHideNothing(s, p);
    ProjectionIff(s, p);
  }

  /** Where it fails: a nested key with blanks around it is not read at first, and is after its
      copy has been written back. */
  lemma PaddedKeyIsRevealed(s: Schema, padded: string, text: string)
    requires ValidSchema(s) && padded != Trim(padded) && Trim(padded) in s.texts && Trim(padded) != "task_scope"
    requires Trim(text) != ""
    ensures var p := map[NESTED := Object(map[padded := Plain(text)])];
            Resolve(s, p).Resolved? && !NothingHidden(s, p)
            && exists tidied :: TrimmingOf(NestedFields(p), tidied)
                                && Resolve(s, Applied(p, Resolve(s, p).context, tidied)) != Resolve(s, p)
  {
    var n := map[padded := Plain(text)];
    var p := map[NESTED := Object(n)];
    var key := Trim(padded);
    PaddedShowsNothing(s, padded, text);
    assert NestedFields(p) == n;
    assert Names(s, key)[0] == key && TextAt(n, padded) == Trim(text);
    LacksWhatReadsAsNothing(s, p, key);
    assert HiddenText(s, p, key);
    ProjectionIff(s, p);
  }

  ghost predicate Absent(p: Fields, k: string) {
    At(p, k) == Null && At(NestedFields(p), k) == Null
  }

  lemma AbsentText(s: Schema, p: Fields, k: string)
    requires ValidSchema(s) && k in s.texts
    requires forall k | k != NESTED && Trimmed(k) :: Absent(p, k)
    ensures FirstGet(p, [k] + AliasesOf(s, k)) == ""
  {
    assert k in AllKeys(s);
    var keys := [k] + AliasesOf(s, k);
    forall i | 0 <= i < |keys| ensures Absent(p, keys[i]) {
      if i > 0 {
        assert keys[i] == AliasesOf(s, k)[i - 1];
        assert k in s.aliases && keys[i] in s.aliases[k] && NoKey(s, keys[i]);
      }
    }
    AbsentTexts(p, keys);
  }

  lemma AbsentShowsNothing(s: Schema, p: Fields)
    requires ValidSchema(s)
    requires forall k | k != NESTED && Trimmed(k) :: Absent(p, k)
    ensures Found(s, p) == Context(map[], map[], map[], map[])
  {
    forall k | k in s.texts ensures FirstGet(p, [k] + AliasesOf(s, k)) == "" {
      AbsentText(s, p, k);
    }
    forall k | k in s.lists + s.maps + s.flags ensures Absent(p, k) {
      assert k in AllKeys(s);
    }
  }

  lemma PaddedShowsNothing(s: Schema, padded: string, text: string)
    requires ValidSchema(s) && padded != Trim(padded)
    ensures var p := map[NESTED := Object(map[padded := Plain(text)])];
            Found(s, p) == Context(map[], map[], map[], map[])
            && Resolve(s, p) == Resolved(Context(map["task_scope" := "legacy_model_or_node"], map[], map[], map[]))
  {
    var p: Fields := map[NESTED := Object(map[padded := Plain(text)])];
    forall k | k != NESTED && Trimmed(k) ensures At(p, k) == Null && At(NestedFields(p), k) == Null {
    }
    AbsentShowsNothing(s, p);
  }

  lemma {:induction false} AbsentTexts(p: Fields, keys: seq<string>)
    requires forall k | k in keys :: At(p, k) == Null && At(NestedFields(p), k) == Null
    ensures FirstGet(p, keys) == ""
  {
    assert Trim("") == "";
    if keys != [] {
      assert keys[0] in keys && forall k | k in keys[1..] :: k in keys;
      AbsentTexts(p, keys[1..]);
    }
  }

  predicate Bare(k: string) {
    k != "" && !IsSpace(k[0]) && !IsSpace(k[|k| - 1])
  }

  lemma TextKeysAreBare()
    ensures forall k | k in TEXT_KEYS :: Bare(k) && k != NESTED
  {
  }

  lemma OtherKeysAreBare()
    ensures forall k | k in LIST_KEYS + MAP_KEYS + FLAG_KEYS :: Bare(k) && k != NESTED
  {
  }

  lemma KeyKindsAreApart()
    ensures TEXT_KEYS !! LIST_KEYS && TEXT_KEYS !! MAP_KEYS && TEXT_KEYS !! FLAG_KEYS
    ensures LIST_KEYS !! MAP_KEYS && LIST_KEYS !! FLAG_KEYS && MAP_KEYS !! FLAG_KEYS
  {
  }

  predicate Apart(a: string) {
    Bare(a) && a != NESTED && a !in TEXT_KEYS && a !in LIST_KEYS && a !in MAP_KEYS && a !in FLAG_KEYS
  }

  lemma AliasesAreApart()
    ensures Apart("runtime_template_type") && Apart("path")
  {
  }

  lemma ContainerAliasesAreApart()
    ensures Apart("container_id") && Apart("container")
  {
  }

  lemma AllAliasesAreApart()
    ensures forall k, a | k in ALIASES && a in ALIASES[k] :: Apart(a)
  {
    AliasesAreApart();
    ContainerAliasesAreApart();
  }

  lemma BareIsTrimmed(k: string)
    requires Bare(k)
    ensures k != "" && Trimmed(k)
  {
    Ports.TrimUnchanged(k);
  }

  lemma AgentKeysOk()
    ensures KeysOk(SCHEMA)
  {
    TextKeysAreBare();
    OtherKeysAreBare();
    forall k | k in AllKeys(SCHEMA) ensures k != "" && Trimmed(k) && k != NESTED {
      BareIsTrimmed(k);
    }
  }

  lemma ApartIsNoKey(a: string)
    requires Apart(a)
    ensures NoKey(SCHEMA, a)
  {
    BareIsTrimmed(a);
  }

  lemma AgentAliasesOk()
    ensures AliasesOk(SCHEMA)
  {
    AllAliasesAreApart();
    forall k, a | k in ALIASES && a in ALIASES[k] ensures NoKey(SCHEMA, a) {
      ApartIsNoKey(a);
    }
  }

  /** The agent's own keys satisfy what the theorems ask of a schema. */
  lemma AgentSchemaIsValid()
    ensures ValidSchema(SCHEMA)
  {
    KeyKindsAreApart();
    AgentKeysOk();
    AgentAliasesOk();
  }

  // ---- Which copy wins, and what is missing ----

  /** The payload without its nested copy, and the nested copy as a payload. */
  function OwnFields(p: Fields): Fields {
    p - {NESTED}
  }

  function CopyFields(p: Fields): Fields {
    NestedFields(p) - {NESTED}
  }

  lemma CopiesAreFlat(p: Fields, key: string)
    requires key != NESTED
    ensures At(OwnFields(p), key) == At(p, key) && At(CopyFields(p), key) == At(NestedFields(p), key)
    ensures NestedFields(OwnFields(p)) == map[] && NestedFields(CopyFields(p)) == map[]
  {
  }

  lemma TextOfCopies(p: Fields, key: string)
    requires key != NESTED
    ensures Get(OwnFields(p), key) == TextAt(p, key) && Get(CopyFields(p), key) == TextAt(NestedFields(p), key)
  {
    CopiesAreFlat(p, key);
    TextAtIsOfValue(OwnFields(p), p, key, key);
    TextAtIsOfValue(CopyFields(p), NestedFields(p), key, key);
    assert Trim("") == "";
  }

  lemma ListOfCopies(p: Fields, key: string)
    requires key != NESTED
    ensures ListFor(OwnFields(p), key) == ListAt(p, key) && ListFor(CopyFields(p), key) == ListAt(NestedFields(p), key)
    ensures FlagFor(OwnFields(p), key) == FlagAt(p, key) && FlagFor(CopyFields(p), key) == FlagAt(NestedFields(p), key)
  {
    CopiesAreFlat(p, key);
    TextAtIsOfValue(OwnFields(p), p, key, key);
    TextAtIsOfValue(CopyFields(p), NestedFields(p), key, key);
  }

  lemma MapOfCopies(p: Fields, key: string)
    requires key != NESTED
    ensures MapFor(OwnFields(p), key) == MapAt(p, key) && MapFor(CopyFields(p), key) == MapAt(NestedFields(p), key)
  {
    CopiesAreFlat(p, key);
    MapAtIsOfValue(OwnFields(p), p, key, key);
    MapAtIsOfValue(CopyFields(p), NestedFields(p), key, key);
  }

  /** At one key, a map is the overlay of two. */
  predicate OverlaidAt<V(==)>(both: map<string, V>, under: map<string, V>, over: map<string, V>, key: string) {
    && (key in both <==> key in under || key in over)
    && (key in both ==> both[key] == if key in over then over[key] else under[key])
  }

  lemma OverlaidEverywhere<V>(both: map<string, V>, under: map<string, V>, over: map<string, V>, keys: set<string>)
    requires both.Keys <= keys && under.Keys <= keys && over.Keys <= keys
    requires forall k | k in keys :: OverlaidAt(both, under, over, k)
    ensures both == under + over
  {
    forall k ensures k in both <==> k in under + over {
      assert k in keys ==> OverlaidAt(both, under, over, k);
    }
    forall k | k in both ensures both[k] == (under + over)[k] {
      assert OverlaidAt(both, under, over, k);
    }
  }

  lemma ListOverlay(s: Schema, p: Fields, key: string)
    requires ValidSchema(s) && key in s.lists
    ensures OverlaidAt(FoundLists(s, p), FoundLists(s, CopyFields(p)), FoundLists(s, OwnFields(p)), key)
  {
    assert key in AllKeys(s);
    ListOfCopies(p, key);
  }

  lemma MapOverlay(s: Schema, p: Fields, key: string)
    requires ValidSchema(s) && key in s.maps
    ensures OverlaidAt(FoundMaps(s, p), FoundMaps(s, CopyFields(p)), FoundMaps(s, OwnFields(p)), key)
  {
    assert key in AllKeys(s);
    MapOfCopies(p, key);
  }

  lemma FlagOverlay(s: Schema, p: Fields, key: string)
    requires ValidSchema(s) && key in s.flags
    ensures OverlaidAt(FoundFlags(s, p), FoundFlags(s, OwnFields(p)), FoundFlags(s, CopyFields(p)), key)
  {
    assert key in AllKeys(s);
    ListOfCopies(p, key);
  }

  lemma TextOverlay(s: Schema, p: Fields, key: string)
    requires ValidSchema(s) && key in s.texts && AliasesOf(s, key) == []
    ensures OverlaidAt(FoundTexts(s, p), FoundTexts(s, CopyFields(p)), FoundTexts(s, OwnFields(p)), key)
  {
    assert key in AllKeys(s);
    TextOfCopies(p, key);
    OneName(p, key);
    OneName(OwnFields(p), key);
    OneName(CopyFields(p), key);
  }

  /** What is found is the overlay of what the payload and its nested copy show by themselves: of
      lists, maps and texts with one name the payload's over the copy's, of flags the other way
      round. */
  lemma FoundIsOverlay(s: Schema, p: Fields)
    requires ValidSchema(s)
    ensures var own, copy, both := Found(s, OwnFields(p)), Found(s, CopyFields(p)), Found(s, p);
            && both.lists == copy.lists + own.lists
            && both.maps == copy.maps + own.maps
            && both.flags == own.flags + copy.flags
            && forall k | k in s.texts && AliasesOf(s, k) == [] :: OverlaidAt(both.texts, copy.texts, own.texts, k)
  {
    forall k | k in s.lists
      ensures OverlaidAt(FoundLists(s, p), FoundLists(s, CopyFields(p)), FoundLists(s, OwnFields(p)), k)
    {
      ListOverlay(s, p, k);
    }
    forall k | k in s.maps
      ensures OverlaidAt(FoundMaps(s, p), FoundMaps(s, CopyFields(p)), FoundMaps(s, OwnFields(p)), k)
    {
      MapOverlay(s, p, k);
    }
    forall k | k in s.flags
      ensures OverlaidAt(FoundFlags(s, p), FoundFlags(s, OwnFields(p)), FoundFlags(s, CopyFields(p)), k)
    {
      FlagOverlay(s, p, k);
    }
    forall k | k in s.texts && AliasesOf(s, k) == []
      ensures OverlaidAt(FoundTexts(s, p), FoundTexts(s, CopyFields(p)), FoundTexts(s, OwnFields(p)), k)
    {
      TextOverlay(s, p, k);
    }
    OverlaidEverywhere(FoundLists(s, p), FoundLists(s, CopyFields(p)), FoundLists(s, OwnFields(p)), s.lists);
    OverlaidEverywhere(FoundMaps(s, p), FoundMaps(s, CopyFields(p)), FoundMaps(s, OwnFields(p)), s.maps);
    OverlaidEverywhere(FoundFlags(s, p), FoundFlags(s, OwnFields(p)), FoundFlags(s, CopyFields(p)), s.flags);
  }

  lemma OneName(p: Fields, key: string)
    ensures FirstGet(p, [key] + []) == Get(p, key)
  {
    assert ([key] + [])[1..] == [];
  }

  lemma {:induction false} CleanedIff(items: seq<string>, x: string)
    ensures x in Cleaned(items) <==> x != "" && exists y :: y in items && Trim(y) == x
  {
    if items != [] {
      CleanedIff(items[1..], x);
      assert items == [items[0]] + items[1..];
      assert forall y :: y in items <==> y == items[0] || y in items[1..];
    }
  }

  lemma {:induction false} WithoutNilIff(items: seq<string>, x: string)
    ensures x in WithoutNil(items) <==> x in items && Trim(x) != "<nil>"
  {
    if items != [] {
      WithoutNilIff(items[1..], x);
      assert items == [items[0]] + items[1..];
    }
  }

  /** A decoded list reads as its printed items, trimmed, without blanks and nils. */
  lemma DecodedListMeaning(f: Fields, key: string, shown: seq<string>, x: string)
    requires At(f, key) == Items(shown)
    ensures x in ListAt(f, key) <==> x != "" && x != "<nil>" && exists y :: y in shown && Trim(y) == x
  {
    CleanedIff(WithoutNil(shown), x);
    forall y ensures y in WithoutNil(shown) <==> y in shown && Trim(y) != "<nil>" {
      WithoutNilIff(shown, y);
    }
  }

  lemma {:induction false} MissingOfIff(c: Context, fields: seq<string>, f: string)
    ensures f in MissingOf(c, fields) <==> f in fields && f !in c.texts
  {
    if fields != [] {
      MissingOfIff(c, fields[1..], f);
      assert fields == [fields[0]] + fields[1..];
    }
  }

  lemma MissingFieldsIff(c: Context, f: string)
    ensures f in MissingFields(c)
       <==> "task_scope" in c.texts && c.texts["task_scope"] == "runtime_instance" && f in REQUIRED && f !in c.texts
  {
    MissingOfIff(c, REQUIRED, f);
  }

  /** The scope a context is resolved under: the one it states, or that of naming an instance. */
  predicate InstanceScoped(c: Context) {
    if "task_scope" in c.texts then c.texts["task_scope"] == "runtime_instance" else "runtime_instance_id" in c.texts
  }

  lemma ScopeMeaning(c: Context)
    ensures "task_scope" in Scoped(c).texts
    ensures Scoped(c).texts["task_scope"] == "runtime_instance" <==> InstanceScoped(c)
    ensures forall f | f != "task_scope" :: f in Scoped(c).texts <==> f in c.texts
  {
    assert |"legacy_model_or_node"| != |"runtime_instance"|;
  }

  /** A context is refused exactly when it is scoped to a runtime instance and lacks one of the
      four ids; the error names exactly those it lacks. */
  lemma RefusedIffIncomplete(s: Schema, p: Fields)
    ensures Resolve(s, p).MissingContext?
       <==> InstanceScoped(Found(s, p)) && exists f :: f in REQUIRED && f !in Found(s, p).texts
    ensures Resolve(s, p).MissingContext? ==>
              forall f :: f in Resolve(s, p).fields <==> f in REQUIRED && f !in Found(s, p).texts
  {
    var found := Found(s, p);
    ScopeMeaning(found);
    forall f ensures f in MissingFields(Scoped(found)) <==> InstanceScoped(found) && f in REQUIRED && f !in found.texts {
      MissingFieldsIff(Scoped(found), f);
      RequiredIsNotScope(f);
    }
    if MissingFields(Scoped(found)) != [] {
      assert MissingFields(Scoped(found))[0] in MissingFields(Scoped(found));
    }
  }

  lemma RequiredIsNotScope(f: string)
    ensures f in REQUIRED ==> f != "task_scope"
  {
  }

  // ---- The write-back as code ----

  method TrimMapKeys(m: Fields) returns (out: Fields)
    ensures TrimmingOf(m, out)
  {
    out := map[];
    var rest := m.Keys;
    while rest != {}
      invariant rest <= m.Keys
      invariant forall k | k in m && k !in rest && Trim(k) != "" :: Trim(k) in out
      invariant forall k | k in out :: k != "" && exists o :: o in m && Trim(o) == k && out[k] == m[o]
      decreases |rest|
    {
      var k :| k in rest;
      var key := Trim(k);
      if key != "" {
        out := out[key := m[k]];
      }
      rest := rest - {k};
    }
  }

  method Overlay(base: Fields, overlay: Fields) returns (out: Fields)
    ensures out == base + overlay
  {
    out := base;
    var rest := overlay.Keys;
    while rest != {}
      invariant rest <= overlay.Keys && out.Keys == base.Keys + (overlay.Keys - rest)
      invariant forall k | k in out :: out[k] == if k in overlay && k !in rest then overlay[k] else At(base, k)
      decreases |rest|
    {
      var k :| k in rest;
      out := out[k := overlay[k]];
      rest := rest - {k};
    }
  }

  /** The write-back, whatever the order in which the nested copy is walked. */
  method ApplyResolvedContextToTask(p: Fields, c: Context) returns (out: Fields)
    requires NESTED !in Keys(c)
    ensures exists tidied :: TrimmingOf(NestedFields(p), tidied) && out == Applied(p, c, tidied)
  {
    var resolved := ToPayloadMap(c);
    out := Overlay(p, resolved);
    var tidied := TrimMapKeys(NestedFields(out));
    assert NestedFields(out) == NestedFields(p);
    var merged := Overlay(tidied, resolved);
    out := out[NESTED := Object(merged)];
  }
}
