/**
 * `formatClaudeToGemini` and its helpers: a Claude Messages request becomes a Gemini
 * `generateContent` request.
 */
module FormatRequest {
  import opened Wrappers
  import opened Strings
  import opened Json
  import opened Types

  // ===========================================================================
  // cleanSchema
  // ===========================================================================

  /** `{ ...j }` of an object or an array: its members, or its elements under their indexes. */
  function Spread(j: Json): (r: seq<Member>)
    requires j.JObject? || j.JArray?
    ensures forall i :: 0 <= i < |r| ==> r[i].value < j
    ensures j.JObject? ==> r == j.members
  {
    match j
    case JObject(ms) => ms
    case JArray(xs) => seq(|xs|, i requires 0 <= i < |xs| => Member(NatToString(i), xs[i]))
  }

  /** Gemini accepts only these `format`s on a string schema. */
  predicate SupportedFormat(f: Json) {
    f == JString("enum") || f == JString("date-time")
  }

  /** A string schema whose truthy `format` Gemini does not support. */
  predicate DropsFormat(ms: seq<Member>) {
    && Get(ms, "type") == Some(JString("string"))
    && Get(ms, "format").Some? && Truthy(Get(ms, "format").value)
    && !SupportedFormat(Get(ms, "format").value)
  }

  /** The members left after removing `additionalProperties` and an unsupported `format`. */
  function Kept(ms: seq<Member>): (r: seq<Member>)
    ensures forall i :: 0 <= i < |r| ==> r[i] in ms
  {
    var a := Delete(ms, "additionalProperties");
    if DropsFormat(a) then Delete(a, "format") else a
  }

  predicate Combinator(k: string) {
    k == "anyOf" || k == "oneOf" || k == "allOf"
  }

  /**
   * `cleanSchema`: values that are not objects come back as they are; an object (or an
   * array, spread into an object) loses `additionalProperties` and an unsupported string
   * `format`, and its `properties`, `items` and `anyOf`/`oneOf`/`allOf` are cleaned in turn.
   */
  function Clean(j: Json): (r: Json)
    ensures !j.JObject? && !j.JArray? ==> r == j
    ensures !r.JArray?
    decreases j, 0
  {
    if j.JObject? || j.JArray? then
      var ms := Kept(Spread(j));
      JObject(seq(|ms|, i requires 0 <= i < |ms| => Member(ms[i].key, CleanValue(ms[i].key, ms[i].value))))
    else j
  }

  /** What cleaning does to the value of one member, by its key. */
  function CleanValue(k: string, v: Json): Json
    decreases v, 1
  {
    if k == "properties" && Truthy(v) then CleanProperties(v)
    else if k == "items" && Truthy(v) then Clean(v)
    else if Combinator(k) && v.JArray? then
      JArray(seq(|v.items|, i requires 0 <= i < |v.items| => Clean(v.items[i])))
    else v
  }

  /**
   * `Object.entries(p).reduce((acc, [k, v]) => { acc[k] = cleanSchema(v); ... }, {})`:
   * the entries of an object or an array cleaned, those of a string copied, none otherwise.
   */
  function CleanProperties(v: Json): (r: Json)
    ensures r.JObject?
    decreases v, 0
  {
    match v
    case JObject(ms) =>
      JObject(Assign([], seq(|ms|, i requires 0 <= i < |ms| => Member(ms[i].key, Clean(ms[i].value)))))
    case JArray(xs) =>
      JObject(Assign([], seq(|xs|, i requires 0 <= i < |xs| => Member(NatToString(i), Clean(xs[i])))))
    case JString(s) =>
      JObject(Assign([], seq(|s|, i requires 0 <= i < |s| => Member(NatToString(i), JString([s[i]])))))
    case _ => JObject([])
  }

  /** `acc[k] = v` for each entry in turn. */
  function Assign(acc: seq<Member>, entries: seq<Member>): (r: seq<Member>)
    ensures forall i :: 0 <= i < |r| ==> r[i] in acc || r[i] in entries
    decreases |entries|
  {
    if entries == [] then acc
    else
      var init := Assign(acc, entries[..|entries| - 1]);
      var e := entries[|entries| - 1];
      var r := Set(init, e.key, e.value);
      SetFrom(init, e.key, e.value);
      r
  }

  /** Every member after `Set` is an old member or the one set. */
  lemma {:induction false} SetFrom(ms: seq<Member>, k: string, v: Json)
    ensures forall i :: 0 <= i < |Set(ms, k, v)| ==> Set(ms, k, v)[i] in ms || Set(ms, k, v)[i] == Member(k, v)
    decreases |ms|
  {
    if ms != [] && ms[0].key != k {
      SetFrom(ms[1..], k, v);
    }
  }

  predicate DistinctKeys(ms: seq<Member>) {
    forall i, j :: 0 <= i < j < |ms| ==> ms[i].key != ms[j].key
  }

  /**
   * A schema cleaning leaves as it is: an object without `additionalProperties` or an
   * unsupported string `format`, whose `properties`, `items` and combinators are clean.
   */
  predicate Cleaned(j: Json)
    decreases j, 0
  {
    match j
    case JArray(_) => false
    case JObject(ms) =>
      && "additionalProperties" !in Keys(ms)
      && !DropsFormat(ms)
      && forall i :: 0 <= i < |ms| ==> CleanedValue(ms[i].key, ms[i].value)
    case _ => true
  }

  predicate CleanedValue(k: string, v: Json)
    decreases v, 1
  {
    if k == "properties" && Truthy(v) then
      v.JObject? && DistinctKeys(v.members) && forall i :: 0 <= i < |v.members| ==> Cleaned(v.members[i].value)
    else if k == "items" && Truthy(v) then Cleaned(v)
    else if Combinator(k) && v.JArray? then forall i :: 0 <= i < |v.items| ==> Cleaned(v.items[i])
    else true
  }

  // ---------------------------------------------------------------------------
  // Members that keep their keys
  // ---------------------------------------------------------------------------

  /** Replacing values in place keeps the keys. */
  lemma {:induction false} KeysMapped(ms: seq<Member>, out: seq<Member>)
    requires |out| == |ms| && forall i :: 0 <= i < |ms| ==> out[i].key == ms[i].key
    ensures Keys(out) == Keys(ms)
    decreases |ms|
  {
    if ms != [] {
      KeysMapped(ms[1..], out[1..]);
    }
  }

  /** Replacing values in place, leaving those under `k` alone, keeps the value of `k`. */
  lemma {:induction false} GetMapped(ms: seq<Member>, out: seq<Member>, k: string)
    requires |out| == |ms| && forall i :: 0 <= i < |ms| ==> out[i].key == ms[i].key
    requires forall i :: 0 <= i < |ms| && ms[i].key == k ==> out[i].value == ms[i].value
    ensures Get(out, k) == Get(ms, k)
    decreases |ms|
  {
    if ms != [] {
      GetMapped(ms[1..], out[1..], k);
    }
  }

  /** The keys are the members' keys, position by position. */
  lemma {:induction false} KeysAt(ms: seq<Member>)
    ensures forall i :: 0 <= i < |ms| ==> Keys(ms)[i] == ms[i].key
    decreases |ms|
  {
    if ms != [] {
      KeysAt(ms[1..]);
    }
  }

  /** `Set` keeps keys distinct. */
  lemma SetDistinct(ms: seq<Member>, k: string, v: Json)
    requires DistinctKeys(ms)
    ensures DistinctKeys(Set(ms, k, v))
  {
    var r := Set(ms, k, v);
    KeysAt(ms);
    KeysAt(r);
    assert Keys(r) == Keys(ms) || (Keys(r) == Keys(ms) + [k] && k !in Keys(ms));
    forall i, j | 0 <= i < j < |r| ensures r[i].key != r[j].key {
      assert r[i].key == Keys(r)[i] && r[j].key == Keys(r)[j];
    }
  }

  /** Assigning entries in turn to an empty object gives distinct keys. */
  lemma {:induction false} AssignDistinct(entries: seq<Member>)
    ensures DistinctKeys(Assign([], entries))
    decreases |entries|
  {
    if entries != [] {
      var e := entries[|entries| - 1];
      AssignDistinct(entries[..|entries| - 1]);
      SetDistinct(Assign([], entries[..|entries| - 1]), e.key, e.value);
    }
  }

  /** Assigning distinct keys in turn to an empty object rebuilds them in order. */
  lemma {:induction false} AssignFresh(entries: seq<Member>)
    requires DistinctKeys(entries)
    ensures Assign([], entries) == entries
    decreases |entries|
  {
    if entries != [] {
      var init := entries[..|entries| - 1];
      var e := entries[|entries| - 1];
      assert DistinctKeys(init);
      AssignFresh(init);
      assert Assign([], entries) == Set(Assign([], init), e.key, e.value);
      assert forall i :: 0 <= i < |init| ==> init[i].key != e.key;
      SetAbsent(init, e.key, e.value);
      InitLast(entries);
    }
  }

  lemma InitLast<T>(xs: seq<T>)
    requires |xs| > 0
    ensures xs[..|xs| - 1] + [xs[|xs| - 1]] == xs
  {
  }

  lemma ConsSnoc<T>(xs: seq<T>, x: T)
    requires |xs| > 0
    ensures [xs[0]] + (xs[1..] + [x]) == xs + [x]
  {
  }

  /** Setting a key not present appends it. */
  lemma {:induction false} SetAbsent(ms: seq<Member>, k: string, v: Json)
    requires forall i :: 0 <= i < |ms| ==> ms[i].key != k
    ensures Set(ms, k, v) == ms + [Member(k, v)]
    decreases |ms|
  {
    if ms != [] {
      var rest := ms[1..];
      assert forall i :: 0 <= i < |rest| ==> rest[i].key != k;
      SetAbsent(rest, k, v);
      SetCons(ms, k, v);
      ConsSnoc(ms, Member(k, v));
    }
  }

  // ---------------------------------------------------------------------------
  // What cleaning guarantees
  // ---------------------------------------------------------------------------

  /** The members of the cleaned object keep their keys and their order. */
  lemma CleanKeys(j: Json)
    requires j.JObject? || j.JArray?
    ensures Clean(j).JObject? && Keys(Clean(j).members) == Keys(Kept(Spread(j)))
  {
    KeysMapped(Kept(Spread(j)), Clean(j).members);
  }

  /** Members that cleaning does not visit keep their values. */
  lemma CleanKeeps(j: Json, k: string)
    requires j.JObject? || j.JArray?
    requires k != "properties" && k != "items" && !Combinator(k)
    ensures Get(Clean(j).members, k) == Get(Kept(Spread(j)), k)
  {
    var ms := Kept(Spread(j));
    var out := Clean(j).members;
    forall i | 0 <= i < |ms| && ms[i].key == k ensures out[i].value == ms[i].value {
      assert out[i] == Member(ms[i].key, CleanValue(ms[i].key, ms[i].value));
    }
    GetMapped(ms, out, k);
  }

  /** `Kept` removes `additionalProperties` and leaves no unsupported string `format`. */
  lemma KeptClean(ms: seq<Member>)
    ensures "additionalProperties" !in Keys(Kept(ms)) && !DropsFormat(Kept(ms))
  {
    var a := Delete(ms, "additionalProperties");
    if DropsFormat(a) {
      var b := Delete(a, "format");
      assert Get(b, "additionalProperties") == Get(a, "additionalProperties");
      assert Get(b, "format").None?;
    }
  }

  /** The cleaned object has no `additionalProperties` and no unsupported string `format`. */
  lemma CleanHead(j: Json)
    requires j.JObject? || j.JArray?
    ensures "additionalProperties" !in Keys(Clean(j).members) && !DropsFormat(Clean(j).members)
  {
    var ms := Kept(Spread(j));
    var out := Clean(j).members;
    CleanKeys(j);
    KeptClean(Spread(j));
    CleanKeeps(j, "type");
    CleanKeeps(j, "format");
  }

  /** What `cleanSchema` returns is a clean schema, at every level it visits. */
  lemma {:induction false} CleanCleans(j: Json)
    ensures Cleaned(Clean(j))
    decreases j, 0
  {
    if j.JObject? || j.JArray? {
      var ms := Kept(Spread(j));
      var out := Clean(j).members;
      CleanHead(j);
      forall i | 0 <= i < |out| ensures CleanedValue(out[i].key, out[i].value) {
        assert out[i] == Member(ms[i].key, CleanValue(ms[i].key, ms[i].value));
        CleanValueCleans(ms[i].key, ms[i].value);
      }
    }
  }

  lemma {:induction false} CleanValueCleans(k: string, v: Json)
    ensures CleanedValue(k, CleanValue(k, v))
    decreases v, 1
  {
    if k == "properties" && Truthy(v) {
      CleanPropertiesCleans(v);
    } else if k == "items" && Truthy(v) {
      CleanCleans(v);
    } else if Combinator(k) && v.JArray? {
      var r := CleanValue(k, v);
      forall i | 0 <= i < |r.items| ensures Cleaned(r.items[i]) {
        CleanCleans(v.items[i]);
      }
    }
  }

  /** Assigning clean values in turn to an empty object gives an object of clean values with distinct keys. */
  lemma AssignCleaned(es: seq<Member>)
    requires forall i :: 0 <= i < |es| ==> Cleaned(es[i].value)
    ensures var r := Assign([], es);
      DistinctKeys(r) && forall i :: 0 <= i < |r| ==> Cleaned(r[i].value)
  {
    AssignDistinct(es);
  }

  lemma {:induction false} CleanPropertiesCleans(v: Json)
    ensures var r := CleanProperties(v);
      DistinctKeys(r.members) && forall i :: 0 <= i < |r.members| ==> Cleaned(r.members[i].value)
    decreases v, 0
  {
    match v
    case JObject(ms) =>
      var es := seq(|ms|, i requires 0 <= i < |ms| => Member(ms[i].key, Clean(ms[i].value)));
      forall i | 0 <= i < |es| ensures Cleaned(es[i].value) {
        CleanCleans(ms[i].value);
      }
      AssignCleaned(es);
    case JArray(xs) =>
      var es := seq(|xs|, i requires 0 <= i < |xs| => Member(NatToString(i), Clean(xs[i])));
      forall i | 0 <= i < |es| ensures Cleaned(es[i].value) {
        CleanCleans(xs[i]);
      }
      AssignCleaned(es);
    case JString(s) =>
      var es := seq(|s|, i requires 0 <= i < |s| => Member(NatToString(i), JString([s[i]])));
      AssignCleaned(es);
    case _ =>
  }

  /** A clean schema is left exactly as it is. */
  lemma {:induction false} CleanFixed(j: Json)
    requires Cleaned(j)
    ensures Clean(j) == j
    decreases j, 0
  {
    if j.JObject? {
      var ms := j.members;
      assert Get(ms, "additionalProperties").None?;
      assert Kept(ms) == ms;
      var out := Clean(j).members;
      forall i | 0 <= i < |ms| ensures out[i] == ms[i] {
        CleanValueFixed(ms[i].key, ms[i].value);
      }
      assert out == ms;
    }
  }

  lemma {:induction false} CleanValueFixed(k: string, v: Json)
    requires CleanedValue(k, v)
    ensures CleanValue(k, v) == v
    decreases v, 1
  {
    if k == "properties" && Truthy(v) {
      var ms := v.members;
      var es := seq(|ms|, i requires 0 <= i < |ms| => Member(ms[i].key, Clean(ms[i].value)));
      forall i | 0 <= i < |ms| ensures es[i] == ms[i] {
        CleanFixed(ms[i].value);
      }
      assert es == ms;
      AssignFresh(ms);
    } else if k == "items" && Truthy(v) {
      CleanFixed(v);
    } else if Combinator(k) && v.JArray? {
      var r := CleanValue(k, v);
      forall i | 0 <= i < |v.items| ensures r.items[i] == v.items[i] {
        CleanFixed(v.items[i]);
      }
    }
  }

  /** Cleaning twice is cleaning once. */
  lemma CleanIdempotent(j: Json)
    ensures Clean(Clean(j)) == Clean(j)
  {
    CleanCleans(j);
    CleanFixed(Clean(j));
  }

  /**
   * On an object, cleaning removes `additionalProperties`, removes `format` exactly on a
   * string schema with an unsupported truthy format, and keeps every member it does
   * not clean, in place.
   */
  lemma CleanObject(ms: seq<Member>)
    ensures var out := Clean(JObject(ms)).members;
      && Get(out, "additionalProperties") == None
      && Get(out, "format") == (if DropsFormat(ms) then None else Get(ms, "format"))
      && forall k :: k != "additionalProperties" && k != "format" && k != "properties" && k != "items" && !Combinator(k)
           ==> Get(out, k) == Get(ms, k)
  {
    CleanKeys(JObject(ms));
    KeptClean(ms);
    CleanKeeps(JObject(ms), "format");
    forall k | k != "additionalProperties" && k != "format" && k != "properties" && k != "items" && !Combinator(k)
      ensures Get(Clean(JObject(ms)).members, k) == Get(ms, k)
    {
      CleanKeeps(JObject(ms), k);
    }
    var a := Delete(ms, "additionalProperties");
    assert Get(a, "type") == Get(ms, "type") && Get(a, "format") == Get(ms, "format");
    if DropsFormat(a) {
      forall k | k != "format" ensures Get(Delete(a, "format"), k) == Get(a, k) {}
    }
  }

  // ---------------------------------------------------------------------------
  // Where cleaning recurses
  // ---------------------------------------------------------------------------

  /** With distinct keys, a key of one member finds that member's value. */
  lemma GetAt(ms: seq<Member>, i: int)
    requires DistinctKeys(ms) && 0 <= i < |ms|
    ensures Get(ms, ms[i].key) == Some(ms[i].value)
  {
    KeysAt(ms);
    assert Keys(ms)[i] == ms[i].key;
  }

  /** Distinct numbers have distinct decimal renderings. */
  lemma IndexKeysDistinct(i: nat, j: nat)
    requires i != j
    ensures NatToString(i) != NatToString(j)
  {
    NatToStringRoundTrip(i);
    NatToStringRoundTrip(j);
  }

  /** An array spread into an object holds each element under its index, and no key twice. */
  lemma SpreadArray(xs: seq<Json>)
    ensures DistinctKeys(Spread(JArray(xs)))
    ensures forall i :: 0 <= i < |xs| ==> Get(Spread(JArray(xs)), NatToString(i)) == Some(xs[i])
  {
    var ms := Spread(JArray(xs));
    forall i, j | 0 <= i < j < |ms| ensures ms[i].key != ms[j].key {
      IndexKeysDistinct(i, j);
    }
    forall i | 0 <= i < |xs| ensures Get(ms, NatToString(i)) == Some(xs[i]) {
      GetAt(ms, i);
    }
  }

  /** Looking a key up among members cleaned in place finds the cleaned value of its first member. */
  lemma {:induction false} GetCleanValue(ms: seq<Member>, k: string)
    ensures var out := seq(|ms|, i requires 0 <= i < |ms| => Member(ms[i].key, CleanValue(ms[i].key, ms[i].value)));
      Get(out, k) == if Get(ms, k).Some? then Some(CleanValue(k, Get(ms, k).value)) else None
    decreases |ms|
  {
    if ms != [] {
      var out := seq(|ms|, i requires 0 <= i < |ms| => Member(ms[i].key, CleanValue(ms[i].key, ms[i].value)));
      var rest := ms[1..];
      GetCleanValue(rest, k);
      assert out[1..] == seq(|rest|, i requires 0 <= i < |rest| => Member(rest[i].key, CleanValue(rest[i].key, rest[i].value)));
    }
  }

  /**
   * Cleaning an object cleans a truthy `items`, rebuilds truthy `properties` from their
   * cleaned entries, and cleans every element of an array `anyOf`, `oneOf` or `allOf`.
   */
  lemma CleanRecurses(ms: seq<Member>)
    ensures var out := Clean(JObject(ms)).members;
      var items := Get(ms, "items");
      var props := Get(ms, "properties");
      && (items.Some? && Truthy(items.value) ==> Get(out, "items") == Some(Clean(items.value)))
      && (props.Some? && Truthy(props.value) ==> Get(out, "properties") == Some(CleanProperties(props.value)))
      && forall k :: Combinator(k) && Get(ms, k).Some? && Get(ms, k).value.JArray? ==>
           var xs := Get(ms, k).value.items;
           Get(out, k) == Some(JArray(seq(|xs|, i requires 0 <= i < |xs| => Clean(xs[i]))))
  {
    CleanItems(ms);
    CleanNestedProperties(ms);
    forall k | Combinator(k) && Get(ms, k).Some? && Get(ms, k).value.JArray?
      ensures var xs := Get(ms, k).value.items;
        Get(Clean(JObject(ms)).members, k) == Some(JArray(seq(|xs|, i requires 0 <= i < |xs| => Clean(xs[i]))))
    {
      CleanCombinator(ms, k);
    }
  }

  lemma CleanItems(ms: seq<Member>)
    ensures var items := Get(ms, "items");
      items.Some? && Truthy(items.value) ==> Get(Clean(JObject(ms)).members, "items") == Some(Clean(items.value))
  {
    CleanGet(ms, "items");
  }

  lemma CleanNestedProperties(ms: seq<Member>)
    ensures var props := Get(ms, "properties");
      props.Some? && Truthy(props.value) ==>
        Get(Clean(JObject(ms)).members, "properties") == Some(CleanProperties(props.value))
  {
    CleanGet(ms, "properties");
  }

  lemma CleanCombinator(ms: seq<Member>, k: string)
    requires Combinator(k) && Get(ms, k).Some? && Get(ms, k).value.JArray?
    ensures var xs := Get(ms, k).value.items;
      Get(Clean(JObject(ms)).members, k) == Some(JArray(seq(|xs|, i requires 0 <= i < |xs| => Clean(xs[i]))))
  {
    assert |k| == 5 && k[0] != 'i';
    assert k != "properties" && k != "items";
    CleanGet(ms, k);
  }

  /** A key that `Kept` does not remove finds its first value, cleaned by that key. */
  lemma CleanGet(ms: seq<Member>, k: string)
    requires k != "additionalProperties" && k != "format"
    ensures Get(Clean(JObject(ms)).members, k) == if Get(ms, k).Some? then Some(CleanValue(k, Get(ms, k).value)) else None
  {
    var a := Delete(ms, "additionalProperties");
    assert Get(a, k) == Get(ms, k);
    assert Get(Kept(ms), k) == Get(a, k);
    GetCleanValue(Kept(ms), k);
  }

  /**
   * Truthy `properties` given as an object keep their keys in order, each holding its
   * old value cleaned; given as an array, each element is cleaned under its index.
   */
  lemma CleanPropertiesEntries(v: Json)
    requires v.JObject? ==> DistinctKeys(v.members)
    ensures v.JObject? ==>
      CleanProperties(v).members
        == seq(|v.members|, i requires 0 <= i < |v.members| => Member(v.members[i].key, Clean(v.members[i].value)))
    ensures v.JArray? ==>
      CleanProperties(v).members
        == seq(|v.items|, i requires 0 <= i < |v.items| => Member(NatToString(i), Clean(v.items[i])))
  {
    match v
    case JObject(ms) =>
      var es := seq(|ms|, i requires 0 <= i < |ms| => Member(ms[i].key, Clean(ms[i].value)));
      assert DistinctKeys(es);
      AssignFresh(es);
    case JArray(xs) =>
      var es := seq(|xs|, i requires 0 <= i < |xs| => Member(NatToString(i), Clean(xs[i])));
      forall i, j | 0 <= i < j < |es| ensures es[i].key != es[j].key {
        IndexKeysDistinct(i, j);
      }
      AssignFresh(es);
    case _ =>
  }

  // ===========================================================================
  // convertMessages
  // ===========================================================================

  /** `message.role === 'assistant' ? 'model' : 'user'` */
  function GeminiRole(role: string): (r: string)
    ensures r == "model" <==> role == "assistant"
    ensures r == "user" <==> role != "assistant"
  {
    if role == "assistant" then "model" else "user"
  }

  /** The text of a text block: a string as it is, any other value as its JSON. */
  function TextOf(t: Json): string {
    if t.JString? then t.s else Stringify(t)
  }

  /** The `response` of a tool result: a string wrapped as `{result}`, null or absent as `{}`. */
  function ResponseOf(content: Option<Json>): Json {
    match content
    case None => JObject([])
    case Some(JNull) => JObject([])
    case Some(JString(s)) => JObject([Member("result", JString(s))])
    case Some(j) => j
  }

  /** A `tool_use` block with a truthy id and name records the name under its id. */
  predicate Records(b: ClaudeBlock) {
    b.ToolUseBlock? && NonEmpty(b.id) && NonEmpty(b.name)
  }

  function Remember(names: map<string, string>, b: ClaudeBlock): map<string, string> {
    if Records(b) then names[b.id.value := b.name.value] else names
  }

  /** `toolNameMap.get(id) || id` */
  function ToolName(names: map<string, string>, id: string): string {
    if id in names && names[id] != "" then names[id] else id
  }

  /** The part a block becomes, if any: other blocks and tool results without an id give none. */
  function BlockPart(names: map<string, string>, b: ClaudeBlock): (r: Option<Part>)
    ensures r.None? <==> b.OtherBlock? || (b.ToolResultBlock? && !NonEmpty(b.toolUseId))
    ensures b.TextBlock? && b.text.JString? ==> r == Some(TextPart(b.text.s))
    ensures b.TextBlock? && !b.text.JString? ==> r == Some(TextPart(Stringify(b.text)))
    ensures b.ToolUseBlock? ==> r == Some(FunctionCallPart(Call(b.name, b.input, None)))
    ensures b.ToolResultBlock? && NonEmpty(b.toolUseId) ==>
      && r.value.FunctionResponsePart? && r.value.result.id.None?
      && r.value.result.name == ToolName(names, b.toolUseId.value)
      && (b.content.Some? && b.content.value.JString? ==>
            r.value.result.response == JObject([Member("result", b.content.value)]))
      && (b.content.None? || b.content == Some(JNull) ==> r.value.result.response == JObject([]))
      && (b.content.Some? && !b.content.value.JString? && !b.content.value.JNull? ==>
            r.value.result.response == b.content.value)
  {
    match b
    case TextBlock(t) => Some(TextPart(TextOf(t)))
    case ToolUseBlock(_, name, input) => Some(FunctionCallPart(Call(name, input, None)))
    case ToolResultBlock(id, content) =>
      if NonEmpty(id) then
        Some(FunctionResponsePart(CallResult(ToolName(names, id.value), ResponseOf(content), None)))
      else None
    case OtherBlock => None
  }

  /** The parts of an array content so far, and the tool names known. */
  datatype Gathered = Gathered(parts: seq<Part>, names: map<string, string>)

  function Gather(names: map<string, string>, blocks: seq<ClaudeBlock>): Gathered
    decreases |blocks|
  {
    if blocks == [] then Gathered([], names)
    else
      var g := Gather(names, blocks[..|blocks| - 1]);
      var b := blocks[|blocks| - 1];
      var p := BlockPart(g.names, b);
      Gathered(g.parts + (if p.Some? then [p.value] else []), Remember(g.names, b))
  }

  /** The contents so far, and the tool names known across messages. */
  datatype Conversation = Conversation(contents: seq<GeminiContent>, names: map<string, string>)

  /** One message: string content is one text part; array content keeps its parts if it has any. */
  function MessageStep(c: Conversation, m: ClaudeMessage): Conversation {
    var role := GeminiRole(m.role);
    match m.content
    case ContentText(s) => c.(contents := c.contents + [GeminiContent(role, [TextPart(s)])])
    case ContentBlocks(blocks) =>
      var g := Gather(c.names, blocks);
      Conversation(c.contents + (if |g.parts| > 0 then [GeminiContent(role, g.parts)] else []), g.names)
    case OtherContent => c
  }

  function Convert(messages: seq<ClaudeMessage>): Conversation
    decreases |messages|
  {
    if messages == [] then Conversation([], map[])
    else MessageStep(Convert(messages[..|messages| - 1]), messages[|messages| - 1])
  }

  /** `convertMessages`: walks the messages and their blocks, carrying the tool-name map. */
  method ConvertMessages(messages: seq<ClaudeMessage>) returns (contents: seq<GeminiContent>)
    ensures contents == Convert(messages).contents
  {
    contents := [];
    var toolNameMap: map<string, string> := map[];
    var i := 0;
    while i < |messages|
      invariant 0 <= i <= |messages|
      invariant Conversation(contents, toolNameMap) == Convert(messages[..i])
    {
      assert messages[..i + 1][..i] == messages[..i];
      var message := messages[i];
      var geminiRole := GeminiRole(message.role);
      match message.content {
        case ContentText(s) =>
          contents := contents + [GeminiContent(geminiRole, [TextPart(s)])];
        case OtherContent =>
        case ContentBlocks(blocks) =>
          var parts;
          parts, toolNameMap := ConvertBlocks(toolNameMap, blocks);
          if |parts| > 0 {
            contents := contents + [GeminiContent(geminiRole, parts)];
          }
      }
      i := i + 1;
    }
    assert messages[..i] == messages;
  }

  /** The inner loop of `convertMessages`: the parts of one message's blocks, recording tool names. */
  method ConvertBlocks(names: map<string, string>, blocks: seq<ClaudeBlock>)
    returns (parts: seq<Part>, toolNameMap: map<string, string>)
    ensures Gathered(parts, toolNameMap) == Gather(names, blocks)
  {
    toolNameMap := names;
    parts := [];
    var j := 0;
    while j < |blocks|
      invariant 0 <= j <= |blocks|
      invariant Gathered(parts, toolNameMap) == Gather(names, blocks[..j])
    {
      assert blocks[..j + 1][..j] == blocks[..j];
      var contentPart := blocks[j];
      match contentPart {
        case TextBlock(t) =>
          parts := parts + [TextPart(TextOf(t))];
        case ToolUseBlock(id, name, input) =>
          if NonEmpty(id) && NonEmpty(name) {
            toolNameMap := toolNameMap[id.value := name.value];
          }
          parts := parts + [FunctionCallPart(Call(name, input, None))];
        case ToolResultBlock(id, content) =>
          if NonEmpty(id) {
            var toolName := ToolName(toolNameMap, id.value);
            parts := parts + [FunctionResponsePart(CallResult(toolName, ResponseOf(content), None))];
          }
        case OtherBlock =>
      }
      j := j + 1;
    }
    assert blocks[..j] == blocks;
  }

  // ---------------------------------------------------------------------------
  // What the conversion guarantees
  // ---------------------------------------------------------------------------

  /** Every content has role `model` or `user` and at least one part; no message gives two. */
  lemma {:induction false} ConvertShape(messages: seq<ClaudeMessage>)
    ensures var cs := Convert(messages).contents;
      && |cs| <= |messages|
      && forall i :: 0 <= i < |cs| ==> (cs[i].role == "model" || cs[i].role == "user") && |cs[i].parts| > 0
    decreases |messages|
  {
    if messages != [] {
      ConvertShape(messages[..|messages| - 1]);
    }
  }

  predicate AllText(messages: seq<ClaudeMessage>) {
    forall i :: 0 <= i < |messages| ==> messages[i].content.ContentText?
  }

  /** A conversation of string messages converts one for one, in order, each into one text part. */
  lemma {:induction false} TextConversation(messages: seq<ClaudeMessage>)
    requires AllText(messages)
    ensures Convert(messages).contents
         == seq(|messages|, i requires 0 <= i < |messages| =>
                GeminiContent(GeminiRole(messages[i].role), [TextPart(messages[i].content.s)]))
    decreases |messages|
  {
    if messages != [] {
      TextConversation(messages[..|messages| - 1]);
    }
  }

  /** Block `i` is the last one to record a name under `id`. */
  predicate LastRecord(blocks: seq<ClaudeBlock>, id: string, i: int) {
    && 0 <= i < |blocks| && Records(blocks[i]) && blocks[i].id.value == id
    && forall k :: i < k < |blocks| ==> !(Records(blocks[k]) && blocks[k].id.value == id)
  }

  predicate NoRecord(blocks: seq<ClaudeBlock>, id: string) {
    forall k :: 0 <= k < |blocks| ==> !(Records(blocks[k]) && blocks[k].id.value == id)
  }

  /** The name known for an id is that of the last `tool_use` recording it. */
  lemma {:induction false} GatherLastRecord(names: map<string, string>, blocks: seq<ClaudeBlock>, id: string, i: int)
    requires LastRecord(blocks, id, i)
    ensures var known := Gather(names, blocks).names;
      id in known && known[id] == blocks[i].name.value
    decreases |blocks|
  {
    var init := blocks[..|blocks| - 1];
    if i < |blocks| - 1 {
      GatherLastRecord(names, init, id, i);
    }
  }

  /** With no `tool_use` recording an id, what is known about it is what was known before. */
  lemma {:induction false} GatherNoRecord(names: map<string, string>, blocks: seq<ClaudeBlock>, id: string)
    requires NoRecord(blocks, id)
    ensures var known := Gather(names, blocks).names;
      (id in known <==> id in names) && (id in names ==> known[id] == names[id])
    decreases |blocks|
  {
    if blocks != [] {
      GatherNoRecord(names, blocks[..|blocks| - 1], id);
    }
  }

  /** Gathering a run of blocks is gathering its first part, then the rest with the names learnt. */
  lemma {:induction false} GatherAppend(names: map<string, string>, a: seq<ClaudeBlock>, b: seq<ClaudeBlock>)
    ensures Gather(names, a + b)
         == var ga := Gather(names, a);
            var gb := Gather(ga.names, b);
            Gathered(ga.parts + gb.parts, gb.names)
    decreases |b|
  {
    if b == [] {
      assert a + b == a;
    } else {
      var x := b[|b| - 1];
      InitOfAppend(a, b);
      GatherAppend(names, a, b[..|b| - 1]);
      var ga := Gather(names, a);
      var g := Gather(ga.names, b[..|b| - 1]);
      var p := BlockPart(g.names, x);
      AppendAssoc(ga.parts, g.parts, if p.Some? then [p.value] else []);
    }
  }

  lemma InitOfAppend<T>(a: seq<T>, b: seq<T>)
    requires b != []
    ensures (a + b)[..|a + b| - 1] == a + b[..|b| - 1] && (a + b)[|a + b| - 1] == b[|b| - 1]
  {
  }

  /**
   * A tool result whose id an earlier block of the message recorded takes that block's
   * name; with no record anywhere before it, it takes the id itself.
   */
  lemma ResultName(names: map<string, string>, blocks: seq<ClaudeBlock>, j: int)
    requires 0 <= j < |blocks| && blocks[j].ToolResultBlock? && NonEmpty(blocks[j].toolUseId)
    ensures var id := blocks[j].toolUseId.value;
      var before := Gather(names, blocks[..j]).parts;
      var after := Gather(names, blocks[..j + 1]).parts;
      var response := ResponseOf(blocks[j].content);
      && (forall i :: LastRecord(blocks[..j], id, i) ==>
            after == before + [FunctionResponsePart(CallResult(blocks[i].name.value, response, None))])
      && (NoRecord(blocks[..j], id) && id !in names ==>
            after == before + [FunctionResponsePart(CallResult(id, response, None))])
  {
    var id := blocks[j].toolUseId.value;
    assert blocks[..j + 1][..j] == blocks[..j];
    forall i | LastRecord(blocks[..j], id, i)
      ensures var known := Gather(names, blocks[..j]).names; id in known && known[id] == blocks[i].name.value
    {
      GatherLastRecord(names, blocks[..j], id, i);
    }
    if NoRecord(blocks[..j], id) {
      GatherNoRecord(names, blocks[..j], id);
    }
  }

  /** The blocks of the array-content messages, in order. */
  function AllBlocks(messages: seq<ClaudeMessage>): seq<ClaudeBlock>
    decreases |messages|
  {
    if messages == [] then []
    else
      var m := messages[|messages| - 1];
      AllBlocks(messages[..|messages| - 1]) + (if m.content.ContentBlocks? then m.content.blocks else [])
  }

  /** The tool-name map spans messages: it is what the blocks of all earlier messages record. */
  lemma {:induction false} ConvertNames(messages: seq<ClaudeMessage>)
    ensures Convert(messages).names == Gather(map[], AllBlocks(messages)).names
    decreases |messages|
  {
    if messages != [] {
      var init := messages[..|messages| - 1];
      var m := messages[|messages| - 1];
      ConvertNames(init);
      var extra := if m.content.ContentBlocks? then m.content.blocks else [];
      GatherAppend(map[], AllBlocks(init), extra);
      if !m.content.ContentBlocks? {
        assert AllBlocks(messages) == AllBlocks(init) + [];
        assert AllBlocks(init) + [] == AllBlocks(init);
      }
    }
  }

  // ===========================================================================
  // convertTools
  // ===========================================================================

  const WebSearch := "web_search"

  predicate HasWebSearch(tools: seq<ClaudeTool>) {
    exists i :: 0 <= i < |tools| && tools[i].name == WebSearch
  }

  /** `tools.filter((tool) => tool.name !== 'web_search')` */
  function WithoutWebSearch(tools: seq<ClaudeTool>): seq<ClaudeTool>
    decreases |tools|
  {
    if tools == [] then []
    else
      var t := tools[|tools| - 1];
      WithoutWebSearch(tools[..|tools| - 1]) + (if t.name != WebSearch then [t] else [])
  }

  /** A tool as a function declaration, with its input schema cleaned. */
  function Declaration(t: ClaudeTool): FunctionDeclaration {
    FunctionDeclaration(t.name, t.description, Clean(t.inputSchema))
  }

  function Declarations(tools: seq<ClaudeTool>): (r: seq<FunctionDeclaration>)
    ensures |r| == |tools| && forall i :: 0 <= i < |tools| ==> r[i] == Declaration(tools[i])
  {
    seq(|tools|, i requires 0 <= i < |tools| => Declaration(tools[i]))
  }

  /**
   * `convertTools`: no tools give no tool; with `web_search` among them the tool searches
   * the web and declares the others (if any), otherwise it declares them all.
   */
  function ConvertTools(tools: seq<ClaudeTool>): (r: Option<GeminiTool>)
    ensures r.None? <==> |tools| == 0
    ensures r.Some? ==> (r.value.googleSearch <==> HasWebSearch(tools))
  {
    if |tools| == 0 then None
    else if HasWebSearch(tools) then
      var functionTools := WithoutWebSearch(tools);
      Some(GeminiTool(if |functionTools| == 0 then None else Some(Declarations(functionTools)), true))
    else Some(GeminiTool(Some(Declarations(tools)), false))
  }

  /** The filter keeps exactly the tools not named `web_search`, and all of them when none is. */
  lemma {:induction false} WithoutWebSearchKeeps(tools: seq<ClaudeTool>)
    ensures forall t :: t in WithoutWebSearch(tools) <==> t in tools && t.name != WebSearch
    ensures !HasWebSearch(tools) ==> WithoutWebSearch(tools) == tools
    decreases |tools|
  {
    if tools != [] {
      var init := tools[..|tools| - 1];
      WithoutWebSearchKeeps(init);
      assert tools == init + [tools[|tools| - 1]];
    }
  }

  /**
   * Whatever the tools, the declarations are those of the tools other than `web_search`,
   * in order, and the field is absent when there are none.
   */
  lemma ToolDeclarations(tools: seq<ClaudeTool>)
    requires |tools| > 0
    ensures var rest := WithoutWebSearch(tools);
      ConvertTools(tools).value.functionDeclarations == if |rest| == 0 then None else Some(Declarations(rest))
  {
    WithoutWebSearchKeeps(tools);
  }

  /** Every declared parameter schema is clean, and no declaration is named `web_search`. */
  lemma DeclarationsClean(tools: seq<ClaudeTool>)
    requires |tools| > 0 && ConvertTools(tools).value.functionDeclarations.Some?
    ensures var ds := ConvertTools(tools).value.functionDeclarations.value;
      forall i :: 0 <= i < |ds| ==> Cleaned(ds[i].parameters) && ds[i].name != WebSearch
  {
    ToolDeclarations(tools);
    WithoutWebSearchKeeps(tools);
    var rest := WithoutWebSearch(tools);
    var ds := Declarations(rest);
    forall i | 0 <= i < |ds| ensures Cleaned(ds[i].parameters) && ds[i].name != WebSearch {
      CleanCleans(rest[i].inputSchema);
      assert rest[i] in rest;
    }
  }

  // ===========================================================================
  // formatSystemInstruction
  // ===========================================================================

  /** `typeof item === 'string' ? item : item.text`, with an absent text joined as empty. */
  function ItemText(b: SystemBlock): string {
    match b
    case SystemString(s) => s
    case SystemItem(t) => t.GetOr("")
  }

  function ItemTexts(items: seq<SystemBlock>): (r: seq<string>)
    ensures |r| == |items| && forall i :: 0 <= i < |items| ==> r[i] == ItemText(items[i])
  {
    seq(|items|, i requires 0 <= i < |items| => ItemText(items[i]))
  }

  /**
   * `formatSystemInstruction`: an empty string gives none; a string is the text; an array
   * is its item texts joined by newlines; an object is its truthy `text` or else its JSON.
   */
  function FormatSystemInstruction(system: SystemPrompt): (r: Option<SystemInstruction>)
    ensures r.None? <==> system == SystemText("")
    ensures system.SystemText? && system.s != "" ==> r == Some(SystemInstruction(system.s))
    ensures system.SystemBlocks? ==> r == Some(SystemInstruction(Join(ItemTexts(system.items), "\n")))
    ensures system.SystemObject? ==>
      var text := Get(system.members, "text");
      r == Some(SystemInstruction(
             if text.Some? && Truthy(text.value) then TextOf(text.value) else Stringify(JObject(system.members))))
  {
    match system
    case SystemText(s) => if s == "" then None else Some(SystemInstruction(s))
    case SystemBlocks(items) => Some(SystemInstruction(Join(ItemTexts(items), "\n")))
    case SystemObject(ms) =>
      match Get(ms, "text")
      case Some(JString(t)) =>
        Some(SystemInstruction(if t != "" then t else Stringify(JObject(ms))))
      case Some(v) =>
        Some(SystemInstruction(if Truthy(v) then Stringify(v) else Stringify(JObject(ms))))
      case None => Some(SystemInstruction(Stringify(JObject(ms))))
  }

  /** The instruction of a system array splits at its newlines back into the item texts. */
  lemma SystemArraySplits(items: seq<SystemBlock>)
    requires |items| > 0
    requires forall i :: 0 <= i < |items| ==> '\n' !in ItemText(items[i])
    ensures Split(FormatSystemInstruction(SystemBlocks(items)).value.text, '\n') == ItemTexts(items)
  {
    JoinSplit(ItemTexts(items), '\n');
  }

  // ===========================================================================
  // formatClaudeToGemini
  // ===========================================================================

  /** The generation config: the supplied sampling parameters, renamed; none when none is supplied. */
  function GenerationConfigOf(req: ClaudeRequest): (r: Option<GenerationConfig>)
    ensures r.None? <==>
      && req.temperature.None? && req.topP.None? && req.topK.None? && req.maxTokens.None?
      && (req.stopSequences.None? || |req.stopSequences.value| == 0)
    ensures r.Some? ==>
      && r.value.temperature == req.temperature && r.value.topP == req.topP
      && r.value.topK == req.topK && r.value.maxOutputTokens == req.maxTokens
      && (r.value.stopSequences.Some? <==> req.stopSequences.Some? && |req.stopSequences.value| > 0)
      && (r.value.stopSequences.Some? ==> r.value.stopSequences == req.stopSequences)
  {
    var stops := if req.stopSequences.Some? && |req.stopSequences.value| > 0 then req.stopSequences else None;
    var config := GenerationConfig(req.temperature, req.topP, req.topK, req.maxTokens, stops);
    if config == GenerationConfig(None, None, None, None, None) then None else Some(config)
  }

  /** The Gemini request body for a Claude request. */
  function GeminiBody(req: ClaudeRequest): GeminiRequest {
    var system := if req.system.Some? then FormatSystemInstruction(req.system.value) else None;
    var tool := ConvertTools(req.tools.GetOr([]));
    GeminiRequest(
      Convert(req.messages.GetOr([])).contents,
      system,
      GenerationConfigOf(req),
      if tool.Some? then Some([tool.value]) else None)
  }

  /**
   * `formatClaudeToGemini`: the request body, and whether the client asked for a stream
   * (false unless `stream` is true).
   */
  method FormatClaudeToGemini(req: ClaudeRequest) returns (geminiBody: GeminiRequest, isStream: bool)
    ensures geminiBody == GeminiBody(req)
    ensures isStream <==> req.stream == Some(true)
  {
    var contents := ConvertMessages(req.messages.GetOr([]));
    var systemInstruction := if req.system.Some? then FormatSystemInstruction(req.system.value) else None;
    var generationConfig := GenerationConfigOf(req);
    var convertedTools := ConvertTools(req.tools.GetOr([]));
    geminiBody := GeminiRequest(contents, systemInstruction, generationConfig,
                                if convertedTools.Some? then Some([convertedTools.value]) else None);
    isStream := req.stream.GetOr(false);
  }

  /** The body's tools: none without tools, otherwise exactly one converted tool. */
  lemma BodyTools(req: ClaudeRequest)
    ensures var ts := req.tools.GetOr([]);
      && (GeminiBody(req).tools.None? <==> |ts| == 0)
      && (|ts| > 0 ==> GeminiBody(req).tools == Some([ConvertTools(ts).value]))
  {
  }
}
