/**
 The metadata sanitizer over decoded JSON. Objects are maps, so the loop over an object's keys runs in any
 order; a string value is a sequence of bytes, one char a byte, while keys are sequences of code points.
 */
module Metadata {
  import opened Basics

  const MAX_BYTES: nat := 16 * 1024
  const MAX_DEPTH: nat := 8
  const MAX_KEYS: nat := 100
  const MAX_ITEMS: nat := 100
  const MAX_STRING: nat := 2048

  datatype Json =
    | Null
    | Bool(b: bool)
    | Number(text: string)
    | Str(bytes: string)
    | Array(items: seq<Json>)
    | Object(fields: map<string, Json>)

  const REDACTED := Str("[REDACTED]")
  const CUT := Str("[TRUNCATED]")
  const MARKER: map<string, Json> := map["_truncated" := Bool(true)]

  const FORBIDDEN: seq<string> := [
    "password", "passwd", "token", "secret", "authorization", "cookie", "credential",
    "privatekey", "clientsecret", "accesskey", "session"]

  // ---------------------------------------------------------------------------------------------
  // Forbidden keys
  // ---------------------------------------------------------------------------------------------

  /** Letters and digits in lower case, nothing for any other character: Unicode's tables, taken as a function. */
  type Folding = char -> Option<char>

  function Normalized(fold: Folding, key: string): string {
    if key == "" then ""
    else (if fold(key[0]).Some? then [fold(key[0]).value] else "") + Normalized(fold, key[1..])
  }

  predicate Occurs(fragment: string, text: string) {
    exists i | 0 <= i <= |text| :: fragment <= text[i..]
  }

  predicate Forbidden(fold: Folding, key: string) {
    exists fragment <- FORBIDDEN :: Occurs(fragment, Normalized(fold, key))
  }

  /** The text has this word somewhere in it. */
  ghost predicate Contains(text: string, word: string) {
    exists pre: string, post: string :: text == pre + word + post
  }

  /** A folded key that names something secret. */
  ghost predicate NamesSecret(folded: string) {
    || Contains(folded, "password") || Contains(folded, "passwd") || Contains(folded, "token")
    || Contains(folded, "secret") || Contains(folded, "authorization") || Contains(folded, "cookie")
    || Contains(folded, "credential") || Contains(folded, "privatekey") || Contains(folded, "clientsecret")
    || Contains(folded, "accesskey") || Contains(folded, "session")
  }

  lemma OccursIffContained(word: string, text: string)
    ensures Occurs(word, text) <==> Contains(text, word)
  {
    if i :| 0 <= i <= |text| && word <= text[i..] {
      var pre, post := text[..i], text[i + |word|..];
      assert text == pre + word + post;
    }
    if pre: string, post: string :| text == pre + word + post {
      assert text[|pre|..] == word + post;
    }
  }

  lemma WordsAreThese(word: string)
    ensures word in FORBIDDEN <==>
            word in {"password", "passwd", "token", "secret", "authorization", "cookie", "credential", "privatekey",
                     "clientsecret", "accesskey", "session"}
  {
    assert FORBIDDEN[0] == "password" && FORBIDDEN[1] == "passwd" && FORBIDDEN[2] == "token";
    assert FORBIDDEN[3] == "secret" && FORBIDDEN[4] == "authorization" && FORBIDDEN[5] == "cookie";
    assert FORBIDDEN[6] == "credential" && FORBIDDEN[7] == "privatekey" && FORBIDDEN[8] == "clientsecret";
    assert FORBIDDEN[9] == "accesskey" && FORBIDDEN[10] == "session";
  }

  /** A key is forbidden exactly when its folded text has one of the eleven words in it. */
  lemma ForbiddenIffNamesSecret(fold: Folding, key: string)
    ensures Forbidden(fold, key) <==> NamesSecret(Normalized(fold, key))
  {
    var text := Normalized(fold, key);
    forall word: string
      ensures Occurs(word, text) <==> Contains(text, word)
      ensures word in FORBIDDEN <==>
              word in {"password", "passwd", "token", "secret", "authorization", "cookie", "credential", "privatekey",
                       "clientsecret", "accesskey", "session"}
    {
      OccursIffContained(word, text);
      WordsAreThese(word);
    }
  }

  /** Folding works character by character: a character gives its folded form or nothing. */
  lemma {:induction false} NormalizedJoins(fold: Folding, a: string, b: string)
    ensures Normalized(fold, a + b) == Normalized(fold, a) + Normalized(fold, b)
  {
    if a == "" {
      assert a + b == b;
    } else {
      assert (a + b)[1..] == a[1..] + b && (a + b)[0] == a[0];
      NormalizedJoins(fold, a[1..], b);
      NormalizedFirst(fold, a);
      NormalizedFirst(fold, a + b);
      Associate(NormalizedChar(fold, a[0]), Normalized(fold, a[1..]), Normalized(fold, b));
    }
  }

  function NormalizedChar(fold: Folding, c: char): string {
    if fold(c).Some? then [fold(c).value] else ""
  }

  lemma NormalizedFirst(fold: Folding, key: string)
    requires key != ""
    ensures Normalized(fold, key) == NormalizedChar(fold, key[0]) + Normalized(fold, key[1..])
  {
  }

  lemma Associate(a: string, b: string, c: string)
    ensures (a + b) + c == a + (b + c)
  {
  }

  lemma NormalizedOne(fold: Folding, c: char)
    ensures Normalized(fold, "") == ""
    ensures Normalized(fold, [c]) == if fold(c) == None then "" else [fold(c).value]
  {
  }

  /** A part of a key that folds to a word brings the word in, whatever stands before and after it. */
  lemma WordInsideStays(fold: Folding, before: string, inside: string, after: string, word: string)
    requires Contains(Normalized(fold, inside), word)
    ensures Contains(Normalized(fold, before + inside + after), word)
  {
    NormalizedJoins(fold, before + inside, after);
    NormalizedJoins(fold, before, inside);
    ContainedFurther(Normalized(fold, before), Normalized(fold, inside), Normalized(fold, after), word);
  }

  lemma ContainedFurther(a: string, b: string, c: string, word: string)
    requires Contains(b, word)
    ensures Contains(a + b + c, word)
  {
    var pre: string, post: string :| b == pre + word + post;
    assert a + b + c == (a + pre) + word + (post + c);
  }

  // ---------------------------------------------------------------------------------------------
  // What a sanitized value is
  // ---------------------------------------------------------------------------------------------

  function Min(a: nat, b: nat): nat {
    if a < b then a else b
  }

  /** A possible result at a depth, for some order of the keys. */
  ghost predicate Cleans(fold: Folding, v: Json, depth: nat, clean: Json)
    decreases v, 0
  {
    if depth > MAX_DEPTH then clean == CUT
    else
      match v
      case Object(fields) =>
        && clean.Object? && clean.fields.Keys <= fields.Keys && |clean.fields| == Min(|fields|, MAX_KEYS)
        && forall k <- fields | k in clean.fields :: CleansEntry(fold, k, fields[k], depth, clean.fields[k])
      case Array(items) =>
        && clean.Array? && |clean.items| == Min(|items|, MAX_ITEMS)
        && forall i | 0 <= i < |clean.items| :: Cleans(fold, items[i], depth + 1, clean.items[i])
      case Str(bytes) => clean == Str(bytes[..Min(|bytes|, MAX_STRING)])
      case _ => clean == v
  }

  /** One entry of an object at this depth. */
  ghost predicate CleansEntry(fold: Folding, key: string, item: Json, depth: nat, clean: Json)
    decreases item, 1
  {
    if Forbidden(fold, key) then clean == REDACTED else Cleans(fold, item, depth + 1, clean)
  }

  /** Whether this result was bounded or redacted anywhere: the flag. */
  ghost predicate Changed(fold: Folding, v: Json, depth: nat, clean: Json)
    decreases v, 0
  {
    || depth > MAX_DEPTH
    || match v
       case Object(fields) =>
         || |fields| > MAX_KEYS
         || exists k <- fields :: clean.Object? && k in clean.fields && ChangedEntry(fold, k, fields[k], depth,
             clean.fields[k])
       case Array(items) =>
         || |items| > MAX_ITEMS
         || exists i | 0 <= i < |items| :: clean.Array? && i < |clean.items| && Changed(fold, items[i], depth + 1,
             clean.items[i])
       case Str(bytes) => |bytes| > MAX_STRING
       case _ => false
  }

  ghost predicate ChangedEntry(fold: Folding, key: string, item: Json, depth: nat, clean: Json)
    decreases item, 1
  {
    Forbidden(fold, key) || Changed(fold, item, depth + 1, clean)
  }

  function Room(depth: nat): nat {
    if depth > MAX_DEPTH then 0 else MAX_DEPTH + 1 - depth
  }

  lemma SubsetIsNotLarger(a: set<string>, b: set<string>)
    requires a <= b
    ensures |a| <= |b| && (|a| == |b| ==> a == b)
  {
    assert b == a + (b - a);
    if b - a == {} {
    } else {
      assert |b| == |a| + |b - a|;
    }
  }

  ghost predicate EntriesClean(fold: Folding, fields: map<string, Json>, depth: nat, clean: map<string, Json>) {
    forall k <- clean :: k in fields && CleansEntry(fold, k, fields[k], depth, clean[k])
  }

  ghost predicate AnyChanged(fold: Folding, fields: map<string, Json>, depth: nat, clean: map<string, Json>) {
    exists k :: k in fields && k in clean && ChangedEntry(fold, k, fields[k], depth, clean[k])
  }

  lemma AddEntry(fold: Folding, fields: map<string, Json>, depth: nat, clean: map<string, Json>, key: string,
      item: Json)
    requires EntriesClean(fold, fields, depth, clean) && key in fields && key !in clean
             && CleansEntry(fold, key, fields[key], depth, item)
    ensures EntriesClean(fold, fields, depth, clean[key := item])
    ensures AnyChanged(fold, fields, depth, clean[key := item])
            <==> AnyChanged(fold, fields, depth, clean) || ChangedEntry(fold, key, fields[key], depth, item)
  {
    var after := clean[key := item];
    if AnyChanged(fold, fields, depth, clean) {
      var k :| k in fields && k in clean && ChangedEntry(fold, k, fields[k], depth, clean[k]);
      assert after[k] == clean[k];
    }
    if ChangedEntry(fold, key, fields[key], depth, item) {
      assert after[key] == item;
    }
  }

  lemma LoopVisitsEnough(keys: set<string>, visited: set<string>, rest: set<string>)
    requires visited <= keys && rest == keys - visited && |visited| <= MAX_KEYS && (rest == {} || |visited| == MAX_KEYS)
    ensures |visited| == Min(|keys|, MAX_KEYS)
  {
    SubsetIsNotLarger(visited, keys);
    if rest == {} {
      assert keys == visited + rest;
    }
  }

  lemma ObjectIsClean(fold: Folding, fields: map<string, Json>, depth: nat, clean: map<string, Json>)
    requires depth <= MAX_DEPTH && EntriesClean(fold, fields, depth, clean) && |clean| == Min(|fields|, MAX_KEYS)
    ensures Cleans(fold, Object(fields), depth, Object(clean))
    ensures Changed(fold, Object(fields), depth, Object(clean)) <==>
            (|fields| > MAX_KEYS || AnyChanged(fold, fields, depth, clean))
  {
  }

  method SanitizeObject(fold: Folding, fields: map<string, Json>, depth: nat)
    returns (clean: map<string, Json>, changed: bool)
    ensures depth > MAX_DEPTH ==> clean == MARKER && changed
    ensures depth <= MAX_DEPTH ==> Cleans(fold, Object(fields), depth, Object(clean))
    ensures depth <= MAX_DEPTH ==> changed == Changed(fold, Object(fields), depth, Object(clean))
    decreases Room(depth), 1
  {
    if depth > MAX_DEPTH {
      return MARKER, true;
    }
    clean, changed := SanitizeFields(fold, fields, depth);
  }

  /** Visits the keys in any order and stops after the hundredth. */
  method SanitizeFields(fold: Folding, fields: map<string, Json>, depth: nat)
    returns (clean: map<string, Json>, changed: bool)
    requires depth <= MAX_DEPTH
    ensures Cleans(fold, Object(fields), depth, Object(clean))
    ensures changed == Changed(fold, Object(fields), depth, Object(clean))
    decreases Room(depth), 0
  {
    clean := map[];
    changed := |fields| > MAX_KEYS;
    var rest := fields.Keys;
    var count := 0;
    while rest != {} && count < MAX_KEYS
      invariant clean.Keys <= fields.Keys && rest == fields.Keys - clean.Keys && |clean| == count <= MAX_KEYS
      invariant EntriesClean(fold, fields, depth, clean)
      invariant changed <==> |fields| > MAX_KEYS || AnyChanged(fold, fields, depth, clean)
      decreases rest
    {
      var key :| key in rest;
      rest := rest - {key};
      count := count + 1;
      clean, changed := SanitizeNext(fold, fields, depth, clean, changed, key);
    }
    LoopVisitsEnough(fields.Keys, clean.Keys, rest);
    ObjectIsClean(fold, fields, depth, clean);
  }

  /** Cleans one more entry. */
  method SanitizeNext(fold: Folding, fields: map<string, Json>, depth: nat, clean: map<string, Json>, changed: bool,
      key: string)
    returns (more: map<string, Json>, flag: bool)
    requires depth <= MAX_DEPTH && EntriesClean(fold, fields, depth, clean) && key in fields && key !in clean
    requires changed <==> |fields| > MAX_KEYS || AnyChanged(fold, fields, depth, clean)
    ensures EntriesClean(fold, fields, depth, more) && more.Keys == clean.Keys + {key} && |more| == |clean| + 1
    ensures flag <==> |fields| > MAX_KEYS || AnyChanged(fold, fields, depth, more)
    decreases Room(depth + 1), 4
  {
    var item;
    item, flag := SanitizeEntry(fold, key, fields[key], depth, changed);
    AddEntry(fold, fields, depth, clean, key, item);
    more := clean[key := item];
  }

  method SanitizeEntry(fold: Folding, key: string, item: Json, depth: nat, truncated: bool)
    returns (clean: Json, flag: bool)
    requires depth <= MAX_DEPTH
    ensures CleansEntry(fold, key, item, depth, clean)
    ensures flag == (truncated || ChangedEntry(fold, key, item, depth, clean))
    decreases Room(depth + 1), 3
  {
    if Forbidden(fold, key) {
      return REDACTED, true;
    }
    clean, flag := SanitizeValue(fold, item, depth + 1, truncated);
  }

  /** The flag only ever goes from false to true. */
  method SanitizeValue(fold: Folding, v: Json, depth: nat, truncated: bool) returns (clean: Json, flag: bool)
    ensures Cleans(fold, v, depth, clean)
    ensures flag == (truncated || Changed(fold, v, depth, clean))
    decreases Room(depth), 2
  {
    if depth > MAX_DEPTH {
      return CUT, true;
    }
    match v
    case Object(fields) =>
      var inner, changed := SanitizeObject(fold, fields, depth);
      return Object(inner), truncated || changed;
    case Array(items) =>
      clean, flag := SanitizeItems(fold, items, depth, truncated);
    case Str(bytes) =>
      if |bytes| > MAX_STRING {
        return Str(bytes[..MAX_STRING]), true;
      }
      assert bytes[..|bytes|] == bytes;
      return v, truncated;
    case _ =>
      return v, truncated;
  }

  method SanitizeItems(fold: Folding, items: seq<Json>, depth: nat, truncated: bool) returns (clean: Json, flag: bool)
    requires depth <= MAX_DEPTH
    ensures Cleans(fold, Array(items), depth, clean)
    ensures flag == (truncated || Changed(fold, Array(items), depth, clean))
    decreases Room(depth), 0
  {
    var limit := Min(|items|, MAX_ITEMS);
    var result := [];
    flag := truncated || |items| > MAX_ITEMS;
    for i := 0 to limit
      invariant |result| == i
      invariant forall j | 0 <= j < i :: Cleans(fold, items[j], depth + 1, result[j])
      invariant flag <==> (truncated || |items| > MAX_ITEMS
                           || exists j | 0 <= j < i :: Changed(fold, items[j], depth + 1, result[j]))
    {
      var item, changed := SanitizeValue(fold, items[i], depth + 1, flag);
      ghost var before := result;
      result := result + [item];
      flag := flag || changed;
      assert forall j | 0 <= j < i :: result[j] == before[j];
    }
    return Array(result), flag;
  }

  /** JSON text, taken as functions: decoding to an object, and the encoded length if it encodes at all. */
  datatype Text = Text(decode: string -> Option<map<string, Json>>, encodedLength: map<string, Json> -> Option<nat>)

  /** The bound on the whole result. */
  function Bounded(text: Text, fields: map<string, Json>, changed: bool): (map<string, Json>, bool) {
    var length := text.encodedLength(fields);
    if length.None? || length.value > MAX_BYTES then (MARKER, true) else (fields, changed)
  }

  /** The possible results for stored metadata. */
  ghost predicate Sanitizes(fold: Folding, text: Text, raw: string, clean: map<string, Json>, changed: bool) {
    if raw == "" then clean == map[] && !changed
    else if text.decode(raw).None? then clean == map[] && changed
    else
      exists inner: map<string, Json> :: Cleans(fold, Object(text.decode(raw).value), 1, Object(inner))
        && (clean, changed) == Bounded(text, inner, Changed(fold, Object(text.decode(raw).value), 1, Object(inner)))
  }

  method SanitizeMetadata(fold: Folding, text: Text, raw: string) returns (clean: map<string, Json>, changed: bool)
    ensures Sanitizes(fold, text, raw, clean, changed)
  {
    if |raw| == 0 {
      return map[], false;
    }
    var value := text.decode(raw);
    if value.None? {
      return map[], true;
    }
    var sanitized, truncated := SanitizeObject(fold, value.value, 1);
    var length := text.encodedLength(sanitized);
    if length.None? || length.value > MAX_BYTES {
      return MARKER, true;
    }
    return sanitized, truncated;
  }

  // ---------------------------------------------------------------------------------------------
  // What sanitizing guarantees, for every value and every order of keys
  // ---------------------------------------------------------------------------------------------

  /** Under every key that names a secret, at any depth, stands the redaction and nothing else. */
  ghost predicate Redacted(fold: Folding, v: Json) {
    match v
    case Object(fields) =>
      forall k <- fields ::
        if NamesSecret(Normalized(fold, k)) then fields[k] == Str("[REDACTED]") else Redacted(fold, fields[k])
    case Array(items) => forall i | 0 <= i < |items| :: Redacted(fold, items[i])
    case _ => true
  }

  /** At most this many containers inside one another, each of at most 100 entries, and short strings. */
  ghost predicate WithinBounds(v: Json, room: nat) {
    match v
    case Object(fields) => room > 0 && |fields| <= 100 && forall k <- fields :: WithinBounds(fields[k], room - 1)
    case Array(items) => room > 0 && |items| <= 100 && forall i | 0 <= i < |items| :: WithinBounds(items[i], room - 1)
    case Str(bytes) => |bytes| <= 2048
    case _ => true
  }

  lemma {:induction false} NothingSurvivesUnderForbiddenKeys(fold: Folding, v: Json, depth: nat, clean: Json)
    requires Cleans(fold, v, depth, clean)
    ensures Redacted(fold, clean)
    decreases v
  {
    if depth <= MAX_DEPTH {
      match v
      case Object(fields) =>
        forall k | k in clean.fields
          ensures Forbidden(fold, k) <==> NamesSecret(Normalized(fold, k))
          ensures !Forbidden(fold, k) ==> Redacted(fold, clean.fields[k])
        {
          assert k in fields;
          ForbiddenIffNamesSecret(fold, k);
          if !Forbidden(fold, k) {
            NothingSurvivesUnderForbiddenKeys(fold, fields[k], depth + 1, clean.fields[k]);
          }
        }
      case Array(items) =>
        forall i | 0 <= i < |clean.items|
          ensures Redacted(fold, clean.items[i])
        {
          NothingSurvivesUnderForbiddenKeys(fold, items[i], depth + 1, clean.items[i]);
        }
      case _ =>
    }
  }

  /** An entry whose key names no secret is an ordinary value one level deeper. */
  lemma OrdinaryEntriesAreCleaned(fold: Folding, fields: map<string, Json>, depth: nat, clean: Json, key: string)
    requires Cleans(fold, Object(fields), depth, clean) && depth <= 8
    ensures clean.Object? && (key in clean.fields ==> key in fields)
    ensures |clean.fields| == (if |fields| < 100 then |fields| else 100)
    ensures key in clean.fields && !NamesSecret(Normalized(fold, key)) ==>
              Cleans(fold, fields[key], depth + 1, clean.fields[key])
  {
    ForbiddenIffNamesSecret(fold, key);
  }

  /** Items keep their places up to the hundredth; each is an ordinary value one level deeper. */
  lemma ItemsAreCleaned(fold: Folding, items: seq<Json>, depth: nat, clean: Json, i: nat)
    requires Cleans(fold, Array(items), depth, clean) && depth <= 8
    ensures clean.Array? && |clean.items| == (if |items| < 100 then |items| else 100)
    ensures i < |clean.items| ==> Cleans(fold, items[i], depth + 1, clean.items[i])
  {
  }

  /** Other values: nothing below the eighth level, the first 2048 bytes of a string, the rest as it is. */
  lemma ScalarsAreKept(fold: Folding, v: Json, depth: nat, clean: Json)
    requires Cleans(fold, v, depth, clean)
    ensures depth > 8 ==> clean == Str("[TRUNCATED]")
    ensures depth <= 8 && v.Str? && |v.bytes| <= 2048 ==> clean == v
    ensures depth <= 8 && v.Str? && |v.bytes| > 2048 ==> clean.Str? && |clean.bytes| == 2048 && clean.bytes < v.bytes
    ensures depth <= 8 && (v.Null? || v.Bool? || v.Number?) ==> clean == v
  {
  }

  /** The whole function: absent, unreadable, too large once cleaned, or the cleaned object with its flag. */
  lemma SanitizedMeans(fold: Folding, text: Text, raw: string, clean: map<string, Json>, changed: bool)
    requires Sanitizes(fold, text, raw, clean, changed)
    ensures raw == "" ==> clean == map[] && !changed
    ensures raw != "" && text.decode(raw) == None ==> clean == map[] && changed
    ensures raw != "" && text.decode(raw) != None ==>
              var read := Object(text.decode(raw).value);
              || (&& clean == map["_truncated" := Bool(true)] && changed
                  && exists inner: map<string, Json> :: Cleans(fold, read, 1, Object(inner))
                       && (text.encodedLength(inner) == None || text.encodedLength(inner).value > 16384))
              || (&& Cleans(fold, read, 1, Object(clean)) && (changed <==> !Harmless(fold, read, 1))
                  && text.encodedLength(clean) != None && text.encodedLength(clean).value <= 16384)
  {
    if raw != "" && text.decode(raw).Some? {
      var read := Object(text.decode(raw).value);
      var inner: map<string, Json> :| Cleans(fold, read, 1, Object(inner))
        && (clean, changed) == Bounded(text, inner, Changed(fold, read, 1, Object(inner)));
      FlagIsExact(fold, read, 1, Object(inner));
    }
  }

  /** At most eight containers inside one another from the first level on. */
  lemma {:induction false} ResultIsBounded(fold: Folding, v: Json, depth: nat, clean: Json)
    requires Cleans(fold, v, depth, clean)
    ensures WithinBounds(clean, if depth > 8 then 0 else 9 - depth)
    decreases v
  {
    if depth <= MAX_DEPTH {
      match v
      case Object(fields) =>
        forall k | k in clean.fields
          ensures WithinBounds(clean.fields[k], Room(depth) - 1)
        {
          assert k in fields;
          if !Forbidden(fold, k) {
            ResultIsBounded(fold, fields[k], depth + 1, clean.fields[k]);
          }
        }
      case Array(items) =>
        forall i | 0 <= i < |clean.items|
          ensures WithinBounds(clean.items[i], Room(depth) - 1)
        {
          ResultIsBounded(fold, items[i], depth + 1, clean.items[i]);
        }
      case _ =>
    }
  }

  /** Sanitizing a result again, in whatever order, gives the same result. */
  lemma {:induction false} SanitizingIsIdempotent(fold: Folding, v: Json, depth: nat, clean: Json, again: Json)
    requires Cleans(fold, v, depth, clean) && Cleans(fold, clean, depth, again)
    ensures again == clean
    decreases v
  {
    if depth <= MAX_DEPTH {
      match v
      case Object(fields) =>
        SubsetIsNotLarger(again.fields.Keys, clean.fields.Keys);
        forall k | k in clean.fields
          ensures again.fields[k] == clean.fields[k]
        {
          assert k in fields;
          if !Forbidden(fold, k) {
            SanitizingIsIdempotent(fold, fields[k], depth + 1, clean.fields[k], again.fields[k]);
          }
        }
        assert again.fields == clean.fields;
      case Array(items) =>
        forall i | 0 <= i < |clean.items|
          ensures again.items[i] == clean.items[i]
        {
          SanitizingIsIdempotent(fold, items[i], depth + 1, clean.items[i], again.items[i]);
        }
        assert again.items == clean.items;
      case Str(bytes) =>
        assert clean.bytes[..|clean.bytes|] == clean.bytes;
      case _ =>
    }
  }

  /** Nothing to bound and nothing to redact. */
  ghost predicate Harmless(fold: Folding, v: Json, depth: nat) {
    && depth <= 8
    && match v
       case Object(fields) =>
         && |fields| <= 100
         && forall k <- fields :: !NamesSecret(Normalized(fold, k)) && Harmless(fold, fields[k], depth + 1)
       case Array(items) => |items| <= 100 && forall i | 0 <= i < |items| :: Harmless(fold, items[i], depth + 1)
       case Str(bytes) => |bytes| <= 2048
       case _ => true
  }

  /** The flag is exact: false exactly when there was nothing to do, and then the value is unchanged. */
  lemma {:induction false} FlagIsExact(fold: Folding, v: Json, depth: nat, clean: Json)
    requires Cleans(fold, v, depth, clean)
    ensures !Changed(fold, v, depth, clean) <==> Harmless(fold, v, depth)
    ensures !Changed(fold, v, depth, clean) ==> clean == v
    decreases v
  {
    if depth <= MAX_DEPTH {
      match v
      case Object(fields) =>
        forall k | k in fields
          ensures Forbidden(fold, k) <==> NamesSecret(Normalized(fold, k))
        {
          ForbiddenIffNamesSecret(fold, k);
        }
        forall k | k in clean.fields && !Forbidden(fold, k)
          ensures !Changed(fold, fields[k], depth + 1, clean.fields[k]) <==> Harmless(fold, fields[k], depth + 1)
          ensures !Changed(fold, fields[k], depth + 1, clean.fields[k]) ==> clean.fields[k] == fields[k]
        {
          FlagIsExact(fold, fields[k], depth + 1, clean.fields[k]);
        }
        SubsetIsNotLarger(clean.fields.Keys, fields.Keys);
        if |fields| <= MAX_KEYS && !Changed(fold, v, depth, clean) {
          assert forall k <- fields :: !ChangedEntry(fold, k, fields[k], depth, clean.fields[k]);
          assert clean.fields == fields;
        }
      case Array(items) =>
        forall i | 0 <= i < |clean.items|
          ensures !Changed(fold, items[i], depth + 1, clean.items[i]) <==> Harmless(fold, items[i], depth + 1)
          ensures !Changed(fold, items[i], depth + 1, clean.items[i]) ==> clean.items[i] == items[i]
        {
          FlagIsExact(fold, items[i], depth + 1, clean.items[i]);
        }
        if |items| <= MAX_ITEMS && !Changed(fold, v, depth, clean) {
          assert clean.items == items;
        }
      case Str(bytes) =>
        assert |bytes| <= MAX_STRING ==> bytes[..|bytes|] == bytes;
      case _ =>
    }
  }

  /** What the folding is on the letters of the marker's key. */
  ghost predicate FoldsMarker(fold: Folding) {
    fold('_') == None && forall c <- "truncated" :: fold(c) == Some(c)
  }

  lemma FragmentHeads(fragment: string)
    requires fragment in FORBIDDEN
    ensures |fragment| >= 5
    ensures fragment[..2] in {"pa", "to", "se", "au", "co", "cr", "pr", "cl", "ac"}
  {
    assert "password"[..2] == "pa" && "passwd"[..2] == "pa" && "token"[..2] == "to" && "secret"[..2] == "se";
    assert "authorization"[..2] == "au" && "cookie"[..2] == "co" && "credential"[..2] == "cr"
        && "privatekey"[..2] == "pr";
    assert "clientsecret"[..2] == "cl" && "accesskey"[..2] == "ac" && "session"[..2] == "se";
  }

  lemma MarkerIsAllowed(fold: Folding)
    requires FoldsMarker(fold)
    ensures !NamesSecret(Normalized(fold, "_truncated"))
  {
    MarkerIsNotForbidden(fold);
    ForbiddenIffNamesSecret(fold, "_truncated");
  }

  lemma MarkerIsNotForbidden(fold: Folding)
    requires FoldsMarker(fold)
    ensures !Forbidden(fold, "_truncated")
  {
    NormalizedMarker(fold);
    forall fragment | fragment in FORBIDDEN
      ensures !Occurs(fragment, "truncated")
    {
      NoFragmentInTruncated(fragment);
    }
  }

  lemma NoFragmentInTruncated(fragment: string)
    requires fragment in FORBIDDEN
    ensures !Occurs(fragment, "truncated")
  {
    FragmentHeads(fragment);
    if i :| 0 <= i <= |"truncated"| && fragment <= "truncated"[i..] {
      assert i <= 4;
      assert fragment[..2] == "truncated"[i..i + 2];
      PairsOfTruncated(i);
    }
  }

  lemma PairsOfTruncated(i: nat)
    requires i <= 7
    ensures "truncated"[i..i + 2] !in {"pa", "to", "se", "au", "co", "cr", "pr", "cl", "ac"}
  {
    var pair := "truncated"[i..i + 2];
    assert pair[0] == "truncated"[i] && pair[1] == "truncated"[i + 1];
  }

  lemma {:induction false} NormalizedKeeps(fold: Folding, s: string)
    requires forall c <- s :: fold(c) == Some(c)
    ensures Normalized(fold, s) == s
  {
    if s != "" {
      NormalizedKeeps(fold, s[1..]);
    }
  }

  lemma NormalizedMarker(fold: Folding)
    requires FoldsMarker(fold)
    ensures Normalized(fold, "_truncated") == "truncated"
  {
    assert "_truncated"[1..] == "truncated";
    NormalizedKeeps(fold, "truncated");
  }

  lemma TokenInKey(fold: Folding, before: string)
    requires forall c <- "token" :: fold(c) == Some(c)
    ensures Contains(Normalized(fold, before + "token" + ""), "token")
  {
    NormalizedKeeps(fold, "token");
    ContainsItself("token");
    WordInsideStays(fold, before, "token", "", "token");
  }

  lemma ContainsItself(word: string)
    ensures Contains(word, word)
  {
    assert word == "" + word + "";
  }

  /** With the usual folding, nothing survives under a key that ends in the word token. */
  lemma TokenIsRedacted(fold: Folding, fields: map<string, Json>, clean: map<string, Json>, before: string)
    requires forall c <- "token" :: fold(c) == Some(c)
    requires Cleans(fold, Object(fields), 1, Object(clean)) && before + "token" in clean
    ensures clean[before + "token"] == Str("[REDACTED]")
  {
    TokenInKey(fold, before);
    assert before + "token" + "" == before + "token";
    NothingSurvivesUnderForbiddenKeys(fold, Object(fields), 1, Object(clean));
  }

  /** Sanitized metadata is a fixed point of the whole function, the size bound included. */
  lemma MarkerIsFixed(fold: Folding, again: map<string, Json>)
    requires FoldsMarker(fold) && Cleans(fold, Object(MARKER), 1, Object(again))
    ensures again == MARKER
  {
    MarkerIsNotForbidden(fold);
    SubsetIsNotLarger(again.Keys, MARKER.Keys);
  }

  lemma WholeResultIsFixed(fold: Folding, text: Text, fields: map<string, Json>, inner: map<string, Json>,
      again: map<string, Json>)
    requires FoldsMarker(fold) && text.encodedLength(MARKER).Some? && text.encodedLength(MARKER).value <= MAX_BYTES
    requires Cleans(fold, Object(fields), 1, Object(inner))
    requires Cleans(fold, Object(Bounded(text, inner, false).0), 1, Object(again))
    ensures Bounded(text, again, false).0 == Bounded(text, inner, false).0
  {
    if Bounded(text, inner, false).0 == MARKER {
      MarkerIsFixed(fold, again);
    } else {
      SanitizingIsIdempotent(fold, Object(fields), 1, Object(inner), Object(again));
    }
  }
}
