/** Value shapes shared by every service of the backend: optional values,
    answers of external collaborators (which may raise), Python dictionary
    entries read with `.get`, and the few Python idioms (`x or 0`,
    truthiness, `", ".join`, percentage rates) that several files repeat. */
module Common {

  /** Python's `None` or a value. */
  datatype Option<+T> = None | Some(value: T) {
    function GetOr(default: T): T {
      match this
      case Some(v) => v
      case None => default
    }
  }

  /** What a call into an external collaborator (database, vector store,
      face model) gives back: an answer, or an exception with its text. */
  datatype Outcome<+T> = Answer(value: T) | Raises(message: string)

  /** A dictionary entry read with `d.get(key, default)`: the key may be
      missing, present with `None`, or present with a value. */
  datatype Field<+T> = Absent | Null | Present(value: T) {
    /** `d.get(key, default)`: the default only replaces a missing key. */
    function Get(default: T): (r: Option<T>)
      ensures Absent? ==> r == Some(default)
      ensures Null? ==> r == None
      ensures Present? ==> r == Some(value)
    {
      match this
      case Absent => Some(default)
      case Null => None
      case Present(v) => Some(v)
    }
  }

  /** The HTTP status codes the handlers raise. */
  const BadRequest: nat := 400
  const Unauthorized: nat := 401
  const Forbidden: nat := 403
  const NotFound: nat := 404
  const InternalServerError: nat := 500

  /** A result of an operation of the backend: a value or a typed error. */
  datatype Result<+T, +E> = Ok(value: T) | Err(error: E)

  /** Python `n or 0` on a nullable integer column. */
  function OrZero(n: Option<int>): (r: int)
    ensures n == None ==> r == 0
    ensures n.Some? ==> r == n.value
  {
    if n.Some? then n.value else 0
  }

  /** Python `x or 0.0` on a nullable real column (0.0 is falsy, so it maps to itself). */
  function OrZeroReal(x: Option<real>): (r: real)
    ensures x == None ==> r == 0.0
    ensures x.Some? ==> r == x.value
  {
    if x.Some? then x.value else 0.0
  }

  /** Python truthiness of a nullable boolean column. */
  predicate Truthy(b: Option<bool>) {
    b == Some(true)
  }

  /** Python truthiness of an optional string: `None` and "" are false. */
  predicate NonEmpty(s: Option<string>) {
    s.Some? && s.value != ""
  }

  /** `(success / total * 100) if total > 0 else 0`, on exact reals
      (the rounding the callers apply afterwards is not modelled). */
  function SuccessRate(success: int, total: int): (r: real)
    ensures total <= 0 ==> r == 0.0
    ensures total > 0 ==> r * total as real == success as real * 100.0
    ensures total > 0 && 0 <= success <= total ==> 0.0 <= r <= 100.0
    ensures total > 0 && success == total ==> r == 100.0
  {
    if total > 0 then success as real / total as real * 100.0 else 0.0
  }

  /** `sep.join(parts)`. */
  function Join(parts: seq<string>, sep: string): string
  {
    if |parts| == 0 then ""
    else if |parts| == 1 then parts[0]
    else Join(parts[..|parts| - 1], sep) + sep + parts[|parts| - 1]
  }

  /** Number of `%s` placeholders in a SQL text. */
  function Placeholders(s: string): nat
  {
    if |s| < 2 then 0
    else (if s[0] == '%' && s[1] == 's' then 1 else 0) + Placeholders(s[1..])
  }

  /** Placeholders of a concatenation are those of the parts, provided the
      seam cannot create a new `%s`. */
  lemma {:induction false} PlaceholdersAppend(a: string, b: string)
    requires a == [] || a[|a| - 1] != '%'
    ensures Placeholders(a + b) == Placeholders(a) + Placeholders(b)
  {
    if |a| == 0 {
      assert a + b == b;
    } else if |a| == 1 {
      assert (a + b)[1..] == b;
      assert a[0] != '%';
    } else {
      assert (a + b)[1..] == a[1..] + b;
      PlaceholdersAppend(a[1..], b);
    }
  }

  /** A text without `%` holds no placeholder. */
  lemma {:induction false} NoPercentNoPlaceholders(s: string)
    requires '%' !in s
    ensures Placeholders(s) == 0
  {
    if |s| >= 2 {
      assert s[0] in s;
      assert forall c :: c in s[1..] ==> c in s;
      NoPercentNoPlaceholders(s[1..]);
    }
  }
}
