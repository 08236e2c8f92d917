/** Values shared by every component of the portal client: optional values,
    the outcome of one call to the REST backend, the request a handler issues,
    and a few helpers over lists and messages. */
module Common {

  datatype Option<+T> = None | Some(value: T)

  /** A user or video identifier as the backend sends it. */
  type Id = int

  /** A rejected backend call: `status` is None when no response arrived
      at all; `message` is the `message` field of the response body, when
      there is one. */
  datatype HttpError = HttpError(status: Option<int>, message: Option<string>)

  /** The outcome of one awaited backend call, as the handler sees it:
      the response body, or the rejection. */
  datatype Response<+T> = Success(data: T) | Failure(error: HttpError)

  datatype Verb = Get | Post | Put | Delete

  /** A file the browser hands to a file input. */
  datatype VideoFile = VideoFile(name: string)

  /** One value of a multipart form. */
  datatype FormValue = Text(text: string) | FileValue(file: VideoFile)

  datatype FormEntry = FormEntry(name: string, value: FormValue)

  datatype Body =
    | NoBody
    | Json(fields: map<string, string>)
    | Multipart(entries: seq<FormEntry>)

  /** A request as the handler builds it, before the request hook runs. */
  datatype Request = Request(verb: Verb, path: string, body: Body)

  /** The empty response body of calls whose result is not read. */
  datatype Unit = Unit

  predicate IsDigit(c: char) { '0' <= c <= '9' }

  /** The value of one decimal digit. */
  function DigitValue(c: char): nat
    requires IsDigit(c)
  {
    c as int - '0' as int
  }

  function DigitChar(d: nat): (c: char)
    requires d < 10
    ensures IsDigit(c) && DigitValue(c) == d
  {
    "0123456789"[d]
  }

  /** The number a string of decimal digits denotes, most significant first. */
  function DecimalValue(s: string): nat
    requires forall k :: 0 <= k < |s| ==> IsDigit(s[k])
    decreases |s|
  {
    if s == [] then 0 else 10 * DecimalValue(s[..|s| - 1]) + DigitValue(s[|s| - 1])
  }

  /** Decimal digits of n, most significant first: they read back as n. */
  function Digits(n: nat): (s: string)
    ensures |s| > 0
    ensures forall k :: 0 <= k < |s| ==> IsDigit(s[k])
    ensures DecimalValue(s) == n
    decreases n
  {
    if n < 10 then [DigitChar(n)]
    else
      var s := Digits(n / 10) + [DigitChar(n % 10)];
      assert s[..|s| - 1] == Digits(n / 10);
      s
  }

  /** The integer a template-string id reads as: an optional minus sign,
      then decimal digits. */
  function IdValue(s: string): int
    requires |s| > 0 && (s[0] == '-' || IsDigit(s[0]))
    requires forall k :: 0 < k < |s| ==> IsDigit(s[k])
  {
    if s[0] == '-' then -(DecimalValue(s[1..]) as int) else DecimalValue(s)
  }

  /** How a numeric id reads inside a template string such as `/videos/${id}`:
      the text reads back as the id itself. */
  function IdText(id: Id): (s: string)
    ensures |s| > 0 && (s[0] == '-' || IsDigit(s[0]))
    ensures forall k :: 0 < k < |s| ==> IsDigit(s[k])
    ensures IdValue(s) == id
  {
    if id < 0 then
      var s := "-" + Digits(-id);
      assert s[1..] == Digits(-id);
      s
    else Digits(id)
  }

  /** Distinct ids never read the same. */
  lemma IdTextInjective(a: Id, b: Id)
    requires IdText(a) == IdText(b)
    ensures a == b
  {
    assert IdValue(IdText(a)) == IdValue(IdText(b));
  }

  /** A path built as `prefix + id + suffix` names exactly one id. */
  lemma IdInPathInjective(prefix: string, suffix: string, a: Id, b: Id)
    requires prefix + IdText(a) + suffix == prefix + IdText(b) + suffix
    ensures a == b
  {
    var p := prefix + IdText(a) + suffix;
    var q := prefix + IdText(b) + suffix;
    assert |IdText(a)| == |IdText(b)|;
    assert p[|prefix|..|prefix| + |IdText(a)|] == IdText(a);
    assert q[|prefix|..|prefix| + |IdText(b)|] == IdText(b);
    IdTextInjective(a, b);
  }

  /** JavaScript's `value || fallback` on an optional string, as in
      `err.response?.data?.message || 'Login failed'`: an absent or empty
      value gives the fallback. */
  function TruthyOr(message: Option<string>, fallback: string): (r: string)
    ensures message.Some? && message.value != "" ==> r == message.value
    ensures (message.None? || message.value == "") ==> r == fallback
    ensures fallback != "" ==> r != ""
  {
    match message
    case Some(m) => if m != "" then m else fallback
    case None => fallback
  }

  /** `s` keeps its elements' order inside `t`. */
  predicate IsSubsequence<T(==)>(s: seq<T>, t: seq<T>)
    decreases |t|
  {
    if s == [] then true
    else if t == [] then false
    else (s[0] == t[0] && IsSubsequence(s[1..], t[1..])) || IsSubsequence(s, t[1..])
  }

  /** `list.filter(x => x.id !== id)`: what a successful delete leaves in a
      rendered list. Every element whose id differs is kept as often as it
      occurred, in its order; none whose id matches is kept. */
  function RemoveId<T(==,!new)>(s: seq<T>, idOf: T -> Id, id: Id): (r: seq<T>)
    ensures forall k :: 0 <= k < |r| ==> idOf(r[k]) != id
    ensures forall x :: multiset(r)[x] == if idOf(x) == id then 0 else multiset(s)[x]
    ensures IsSubsequence(r, s)
    decreases |s|
  {
    if s == [] then []
    else
      var rest := RemoveId(s[1..], idOf, id);
      assert s == [s[0]] + s[1..];
      if idOf(s[0]) != id then [s[0]] + rest else rest
  }

  /** Removing an id that no element carries leaves the list as it was. */
  lemma {:induction false} RemoveAbsentId<T(!new)>(s: seq<T>, idOf: T -> Id, id: Id)
    requires forall k :: 0 <= k < |s| ==> idOf(s[k]) != id
    ensures RemoveId(s, idOf, id) == s
    decreases |s|
  {
    if s != [] {
      RemoveAbsentId(s[1..], idOf, id);
    }
  }

  /** Deleting twice by the same id removes nothing more the second time. */
  lemma RemoveIdIdempotent<T(!new)>(s: seq<T>, idOf: T -> Id, id: Id)
    ensures RemoveId(RemoveId(s, idOf, id), idOf, id) == RemoveId(s, idOf, id)
  {
    RemoveAbsentId(RemoveId(s, idOf, id), idOf, id);
  }
}
