/** Shared vocabulary of the bridge: optional values, results, the values a
    Sunshine metadata record can hold, JavaScript truthiness, and the string
    predicates the source gets from `String.prototype`. */
module Common {

  datatype Option<+T> = None | Some(value: T)

  datatype Result<+T, +E> = Ok(value: T) | Err(error: E)

  /** The user-facing texts of src/messages.ts, kept opaque. */
  datatype Notice =
    | SupportRequestAssigned
    | SupportRequestResolved
    | SupportRequestDeleteCancelled
    | SupportRequestCreated(channel: string)
    | SupportRequestFirstMessage
    | CustomerCloseExistingQuestion
    | UnableToRemoveExistingRequests
    | Exceeded50MBLimit
    | FailedToUpload
    | MessageFailedToSend
    | CallbackError(detail: string)

  /** The fields of a Discord channel the bridge inspects. */
  datatype Channel = Channel(
    id: string,
    sendable: bool,
    textBased: bool,
    dmBased: bool,
    thread: bool,
    voiceBased: bool,
    topic: Option<string>)

  /** How `client.channels.fetch(id)` settles: a channel, `null`, or a rejection. */
  datatype Fetch = Fetched(channel: Channel) | FetchedNull | FetchRejected

  /** A Sunshine metadata value: strings, numbers and booleans only. */
  datatype MetaValue = MetaString(str: string) | MetaNumber(num: int) | MetaBool(flag: bool)

  type Metadata = map<string, MetaValue>

  /** `metadata?.[key]`: absent metadata and a missing key both give `undefined`. */
  function Lookup(metadata: Option<Metadata>, key: string): (r: Option<MetaValue>)
    ensures r.Some? <==> metadata.Some? && key in metadata.value
    ensures r.Some? ==> r.value == metadata.value[key]
  {
    match metadata
    case None => None
    case Some(m) => if key in m then Some(m[key]) else None
  }

  /** JavaScript truthiness of a possibly `undefined` metadata value. */
  predicate Truthy(v: Option<MetaValue>)
  {
    match v
    case None => false
    case Some(MetaString(s)) => s != ""
    case Some(MetaNumber(n)) => n != 0
    case Some(MetaBool(b)) => b
  }

  /** The value when `typeof v === 'string'`. */
  function AsString(v: Option<MetaValue>): (r: Option<string>)
    ensures r.Some? <==> v.Some? && v.value.MetaString?
    ensures r.Some? ==> v.value == MetaString(r.value)
  {
    match v
    case Some(MetaString(s)) => Some(s)
    case _ => None
  }

  predicate StartsWith(s: string, prefix: string)
  {
    |prefix| <= |s| && s[..|prefix|] == prefix
  }

  /** `pattern` occurs in `s` starting at index `i`. */
  predicate OccursAt(s: string, pattern: string, i: nat)
  {
    i + |pattern| <= |s| && s[i..i + |pattern|] == pattern
  }

  /** `s.includes(pattern)`. */
  predicate Contains(s: string, pattern: string)
  {
    exists i: nat :: i <= |s| && OccursAt(s, pattern, i)
  }

  /** `s.indexOf(pattern, from)`, with `None` for -1: the first occurrence at or after `from`. */
  function IndexOf(s: string, pattern: string, from: nat): (r: Option<nat>)
    requires from <= |s|
    ensures r.Some? ==> from <= r.value <= |s| && OccursAt(s, pattern, r.value)
    ensures r.Some? ==> forall j: nat :: from <= j < r.value ==> !OccursAt(s, pattern, j)
    ensures r.None? ==> forall j: nat :: from <= j <= |s| ==> !OccursAt(s, pattern, j)
    decreases |s| - from
  {
    if OccursAt(s, pattern, from) then Some(from)
    else if from == |s| then None
    else IndexOf(s, pattern, from + 1)
  }

  /** ASCII lower-casing, the only folding a `/i` regex without the `u` flag
      applies to the letters of the patterns used here. */
  function LowerAscii(c: char): char
  {
    if 'A' <= c <= 'Z' then (c as int + 32) as char else c
  }

  predicate SameChar(a: char, b: char, ignoreCase: bool)
  {
    if ignoreCase then LowerAscii(a) == LowerAscii(b) else a == b
  }

  /** `s` starts with `pattern`, compared exactly or ignoring ASCII case. */
  predicate MatchesPrefix(s: string, pattern: string, ignoreCase: bool)
  {
    |pattern| <= |s| && forall k :: 0 <= k < |pattern| ==> SameChar(s[k], pattern[k], ignoreCase)
  }

  /** `s.replaceAll(pattern, replacement)` (with `ignoreCase`, a `/gi` regex of
      literal characters): scan left to right, replacing each non-overlapping match. */
  function ReplaceAll(s: string, pattern: string, replacement: string, ignoreCase: bool): string
    requires pattern != []
    decreases |s|
  {
    if s == [] then []
    else if MatchesPrefix(s, pattern, ignoreCase) then replacement + ReplaceAll(s[|pattern|..], pattern, replacement, ignoreCase)
    else [s[0]] + ReplaceAll(s[1..], pattern, replacement, ignoreCase)
  }

  /** A string with no match anywhere comes back unchanged. */
  lemma {:induction false} ReplaceAllWithoutMatch(s: string, pattern: string, replacement: string, ignoreCase: bool)
    requires pattern != []
    requires forall i :: 0 <= i < |s| ==> !MatchesPrefix(s[i..], pattern, ignoreCase)
    ensures ReplaceAll(s, pattern, replacement, ignoreCase) == s
  {
    if s != [] {
      assert s[0..] == s;
      forall i | 0 <= i < |s[1..]| ensures !MatchesPrefix(s[1..][i..], pattern, ignoreCase) {
        assert s[1..][i..] == s[i + 1..];
      }
      ReplaceAllWithoutMatch(s[1..], pattern, replacement, ignoreCase);
      assert [s[0]] + s[1..] == s;
    }
  }

  /** Characters that cannot begin a match are copied, and scanning resumes after them. */
  lemma {:induction false} ReplaceAllSkipsPlain(a: string, b: string, pattern: string, replacement: string, ignoreCase: bool)
    requires pattern != []
    requires forall i :: 0 <= i < |a| ==> !SameChar(a[i], pattern[0], ignoreCase)
    ensures ReplaceAll(a + b, pattern, replacement, ignoreCase) == a + ReplaceAll(b, pattern, replacement, ignoreCase)
  {
    if a != [] {
      assert (a + b)[0] == a[0];
      assert !MatchesPrefix(a + b, pattern, ignoreCase);
      assert (a + b)[1..] == a[1..] + b;
      ReplaceAllSkipsPlain(a[1..], b, pattern, replacement, ignoreCase);
    } else {
      assert a + b == b;
    }
  }

  /** A match at the front is replaced and scanning resumes after it. */
  lemma ReplaceAllAtMatch(m: string, b: string, pattern: string, replacement: string, ignoreCase: bool)
    requires pattern != [] && |m| == |pattern| && MatchesPrefix(m, pattern, ignoreCase)
    ensures ReplaceAll(m + b, pattern, replacement, ignoreCase) == replacement + ReplaceAll(b, pattern, replacement, ignoreCase)
  {
    assert MatchesPrefix(m + b, pattern, ignoreCase) by {
      forall k | 0 <= k < |pattern| ensures SameChar((m + b)[k], pattern[k], ignoreCase) {
        assert (m + b)[k] == m[k];
      }
    }
    assert (m + b)[|pattern|..] == b;
  }

  lemma IndexOfFindsContained(s: string, pattern: string)
    ensures IndexOf(s, pattern, 0).Some? <==> Contains(s, pattern)
  {
    if Contains(s, pattern) {
      var i: nat :| i <= |s| && OccursAt(s, pattern, i);
    }
  }
}
