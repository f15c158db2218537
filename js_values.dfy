/**
 The few JavaScript value semantics the edge function depends on: values that
 may be `undefined` or `null`, truthiness, template-literal rendering, thrown
 values, `String.prototype.split` on one separator and `startsWith`.
 */
module JsValues {

  datatype Option<+T> = None | Some(value: T)

  /** A value thrown by a `throw` statement or a rejected promise. */
  datatype Thrown =
    | ErrorObject(message: string)   // an `Error` instance with its message
    | NullValue                      // `null`: reading a property of it throws
    | UndefinedValue                 // `undefined`: reading a property of it throws
    | OtherValue(messageProperty: Field)  // any other value, with its `message` property if it has one

  /** `null` and `undefined`, the values `error.message` throws on. */
  predicate Nullish(e: Thrown) {
    e.NullValue? || e.UndefinedValue?
  }

  /** The messages of the `TypeError` that V8 throws for `e.message` on `null` and on `undefined`. */
  const NullMessageRead := "Cannot read properties of null (reading 'message')"
  const UndefinedMessageRead := "Cannot read properties of undefined (reading 'message')"

  /** The `TypeError` the runtime throws for `e.message` on a nullish `e`. */
  function MessageReadError(e: Thrown): (t: Thrown)
    requires Nullish(e)
    ensures t.ErrorObject?
  {
    ErrorObject(if e.NullValue? then NullMessageRead else UndefinedMessageRead)
  }

  /** `console.error(..., error.message); throw error` in a `catch`: the value it ends up
      throwing, which is the `TypeError` itself when `error` is nullish. */
  function Rethrow(e: Thrown): (t: Thrown)
    ensures !Nullish(e) ==> t == e
    ensures !Nullish(t)
  {
    if Nullish(e) then MessageReadError(e) else e
  }

  /** The outcome of an awaited call that may throw. */
  datatype Result<+T> = Ok(value: T) | Err(error: Thrown)

  /** A string-valued property read from a JSON row: absent, null, or a string. */
  datatype Field = Undefined | Null | Text(s: string)

  /** JavaScript truthiness of a field: only a non-empty string is truthy. */
  predicate Truthy(f: Field) {
    f.Text? && f.s != ""
  }

  /** What `${f}` produces inside a template literal, and what `startsWith` compares against. */
  function Render(f: Field): string {
    match f
    case Undefined => "undefined"
    case Null => "null"
    case Text(s) => s
  }

  /** `s.startsWith(prefix)` */
  predicate StartsWith(s: string, prefix: string) {
    |prefix| <= |s| && s[..|prefix|] == prefix
  }

  /** Number of occurrences of `c` in `s`. */
  function Count(s: string, c: char): nat {
    if s == [] then 0 else (if s[0] == c then 1 else 0) + Count(s[1..], c)
  }

  /** `s.split(sep)` for a one-character separator: empty segments are kept. */
  function Split(s: string, sep: char): (parts: seq<string>)
    ensures |parts| >= 1
    decreases |s|
  {
    if |s| == 0 then [""]
    else
      var rest := Split(s[1..], sep);
      if s[0] == sep then [""] + rest
      else [[s[0]] + rest[0]] + rest[1..]
  }

  /** `parts.join(sep)`, the inverse of `Split`. */
  function Join(parts: seq<string>, sep: char): string
    decreases |parts|
  {
    if parts == [] then ""
    else if |parts| == 1 then parts[0]
    else parts[0] + [sep] + Join(parts[1..], sep)
  }

  /** Splitting yields one more segment than there are separators. */
  lemma {:induction false} SplitLength(s: string, sep: char)
    ensures |Split(s, sep)| == Count(s, sep) + 1
    decreases |s|
  {
    if |s| > 0 {
      SplitLength(s[1..], sep);
    }
  }

  /** No segment contains the separator. */
  lemma {:induction false} SplitSegmentsFree(s: string, sep: char)
    ensures forall i :: 0 <= i < |Split(s, sep)| ==> sep !in Split(s, sep)[i]
    decreases |s|
  {
    if |s| > 0 {
      SplitSegmentsFree(s[1..], sep);
      var rest := Split(s[1..], sep);
      if s[0] != sep {
        assert sep !in [s[0]] + rest[0];
      }
    }
  }

  lemma JoinPrependEmpty(parts: seq<string>, sep: char)
    requires |parts| >= 1
    ensures Join([""] + parts, sep) == [sep] + Join(parts, sep)
  {
  }

  lemma JoinPrependChar(c: char, parts: seq<string>, sep: char)
    requires |parts| >= 1
    ensures Join([[c] + parts[0]] + parts[1..], sep) == [c] + Join(parts, sep)
  {
  }

  /** Joining the segments with the separator gives back the string. */
  lemma {:induction false} SplitJoin(s: string, sep: char)
    ensures Join(Split(s, sep), sep) == s
    decreases |s|
  {
    if |s| > 0 {
      SplitJoin(s[1..], sep);
      var rest := Split(s[1..], sep);
      if s[0] == sep {
        JoinPrependEmpty(rest, sep);
      } else {
        JoinPrependChar(s[0], rest, sep);
      }
      assert s == [s[0]] + s[1..];
    }
  }
}
