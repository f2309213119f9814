/** Shared vocabulary of the route handlers: optional values, HTTP error
    outcomes, database cells, the authenticated user, the few Python string
    and slicing operations the handlers rely on, and counting/summing over
    fetched rows. */
module Common {

  datatype Option<+T> = None | Some(value: T) {
    /** `x if x is not None else default` */
    function GetOr(default: T): T {
      match this
      case Some(v) => v
      case None => default
    }
  }

  /** The HTTP errors the handlers raise, by status code. */
  datatype Error =
    | BadRequest(detail: string)     // 400
    | Unauthorized(detail: string)   // 401
    | Forbidden(detail: string)      // 403
    | NotFound(detail: string)       // 404
    | Unprocessable(detail: string)  // 422, request-model validation
    | ServerError(detail: string)    // 500

  datatype Result<+T> = Success(value: T) | Failure(error: Error)

  /** A column of a fetched row as `row.get(key, default)` sees it: the key
      may be absent, present with SQL NULL, or present with a value. */
  datatype Cell<+T> = Missing | Null | Val(value: T) {
    /** `row.get(key, default)`: the default only for an absent key; a NULL
        comes back as None. */
    function Get(default: T): (r: Option<T>)
      ensures Missing? ==> r == Some(default)
      ensures Null? ==> r == None
      ensures Val? ==> r == Some(value)
    {
      match this
      case Missing => Some(default)
      case Null => None
      case Val(v) => Some(v)
    }
  }

  /** The authenticated caller as the handlers see it (`UserResponse`). */
  datatype User = User(
    id: string,
    role: string,
    firstName: string,
    lastName: string,
    phone: Option<string>,
    communityId: Option<string>)

  /** `current_user.role in roles`, the whole of `require_role`. */
  predicate HasRole(user: User, roles: seq<string>) {
    user.role in roles
  }

  // ---------------------------------------------------------------------
  // Strings (ASCII letters only; see README "Left out")

  function LowerChar(c: char): char {
    if 'A' <= c <= 'Z' then (c as int + 32) as char else c
  }

  function UpperChar(c: char): char {
    if 'a' <= c <= 'z' then (c as int - 32) as char else c
  }

  /** `s.lower()` */
  function Lower(s: string): (r: string)
    ensures |r| == |s|
    ensures forall i :: 0 <= i < |s| ==> r[i] == LowerChar(s[i])
  {
    if s == [] then [] else Lower(s[..|s| - 1]) + [LowerChar(s[|s| - 1])]
  }

  /** `s.upper()` */
  function Upper(s: string): (r: string)
    ensures |r| == |s|
    ensures forall i :: 0 <= i < |s| ==> r[i] == UpperChar(s[i])
  {
    if s == [] then [] else Upper(s[..|s| - 1]) + [UpperChar(s[|s| - 1])]
  }

  /** `t` occurs in `s` starting at index `i`. */
  predicate OccursAt(t: string, s: string, i: int) {
    0 <= i <= |s| - |t| && s[i..i + |t|] == t
  }

  /** Python's `t in s` on strings: `t` starts `s` or occurs in its tail. */
  predicate IsSubstring(t: string, s: string) {
    |t| <= |s| && (s[..|t|] == t || IsSubstring(t, s[1..]))
  }

  /** `IsSubstring` agrees with the index-based definition: `t in s` iff
      `t` occurs in `s` at some index. */
  lemma {:induction false} IsSubstringOccurs(t: string, s: string)
    ensures IsSubstring(t, s) <==> exists i :: 0 <= i <= |s| - |t| && OccursAt(t, s, i)
  {
    if |t| <= |s| && s[..|t|] != t {
      IsSubstringOccurs(t, s[1..]);
      if IsSubstring(t, s) {
        var j :| 0 <= j <= |s[1..]| - |t| && OccursAt(t, s[1..], j);
        assert s[j + 1..j + 1 + |t|] == s[1..][j..j + |t|];
        assert OccursAt(t, s, j + 1);
      } else {
        forall i | 1 <= i <= |s| - |t| ensures !OccursAt(t, s, i) {
          assert 0 <= i - 1 <= |s[1..]| - |t| && !OccursAt(t, s[1..], i - 1);
          assert s[1..][i - 1..i - 1 + |t|] == s[i..i + |t|];
        }
      }
    } else if |t| <= |s| {
      assert OccursAt(t, s, 0);
    }
  }

  /** Python's `s[:n]` for n >= 0. */
  function Prefix<T>(s: seq<T>, n: nat): (r: seq<T>)
    ensures |r| == if n <= |s| then n else |s|
    ensures r <= s
  {
    if n <= |s| then s[..n] else s
  }

  /** A prefix keeps a sub-multiset of the elements. */
  lemma PrefixMultiset<T>(s: seq<T>, n: nat)
    requires n <= |s|
    ensures multiset(s[..n]) <= multiset(s)
  {
    assert s == s[..n] + s[n..];
  }

  /** Python's `s[:n]` for any integer n: a negative n drops |n| elements
      from the end. */
  function SliceTo<T>(s: seq<T>, n: int): (r: seq<T>)
    ensures r <= s
    ensures 0 <= n ==> |r| == if n <= |s| then n else |s|
    ensures n < 0 ==> |r| == if -n <= |s| then |s| + n else 0
  {
    if 0 <= n then Prefix(s, n)
    else if -n <= |s| then s[..|s| + n]
    else []
  }

  predicate IsHexChar(c: char) {
    '0' <= c <= '9' || 'a' <= c <= 'f' || 'A' <= c <= 'F'
  }

  predicate IsUpperHexChar(c: char) {
    '0' <= c <= '9' || 'A' <= c <= 'F'
  }

  /** `f"{tag}{s[:8].upper()}"`: the format of generated community codes and
      transaction ids, where `s` is a random UUID's text. */
  function TaggedId(tag: string, s: string): (r: string)
    ensures |r| == |tag| + (if |s| >= 8 then 8 else |s|)
    ensures r[..|tag|] == tag
    ensures forall i :: |tag| <= i < |r| ==> r[i] == UpperChar(s[i - |tag|])
    ensures (forall i :: 0 <= i < |s| && i < 8 ==> IsHexChar(s[i])) ==> forall i :: |tag| <= i < |r| ==> IsUpperHexChar(r[i])
  {
    tag + Upper(Prefix(s, 8))
  }

  // ---------------------------------------------------------------------
  // Calendar dates (`datetime.date`)

  datatype Date = Date(year: int, month: int, day: int)

  /** The day field of a real date is at least 1. */
  predicate ValidDate(d: Date) {
    1 <= d.month <= 12 && 1 <= d.day <= 31
  }

  /** `a <= b` on dates: by year, then month, then day. */
  predicate DateLe(a: Date, b: Date) {
    a.year < b.year || (a.year == b.year && (a.month < b.month || (a.month == b.month && a.day <= b.day)))
  }

  /** `d.replace(day=1)` */
  function FirstOfMonth(d: Date): (r: Date)
    ensures r.year == d.year && r.month == d.month && r.day == 1
    ensures ValidDate(d) ==> DateLe(r, d) && ValidDate(r)
  {
    d.(day := 1)
  }

  // ---------------------------------------------------------------------
  // Counting and summing over fetched rows

  /** `len([x for x in s if p(x)])` */
  function Count<T>(s: seq<T>, p: T -> bool): (n: nat)
    ensures n <= |s|
  {
    if s == [] then 0
    else Count(s[..|s| - 1], p) + (if p(s[|s| - 1]) then 1 else 0)
  }

  /** `[x for x in s if p(x)]` */
  function Filter<T(!new)>(s: seq<T>, p: T -> bool): (r: seq<T>)
    ensures |r| <= |s|
    ensures forall x :: x in r <==> x in s && p(x)
  {
    if s == [] then []
    else Filter(s[..|s| - 1], p) + (if p(s[|s| - 1]) then [s[|s| - 1]] else [])
  }

  /** `sum(f(x) for x in s if p(x))` */
  function SumWhere<T>(s: seq<T>, p: T -> bool, f: T -> real): real {
    if s == [] then 0.0
    else SumWhere(s[..|s| - 1], p, f) + (if p(s[|s| - 1]) then f(s[|s| - 1]) else 0.0)
  }

  /** Two filters that never both hold count at most the whole list together. */
  lemma {:induction false} CountDisjoint<T>(s: seq<T>, p: T -> bool, q: T -> bool)
    requires forall x :: !(p(x) && q(x))
    ensures Count(s, p) + Count(s, q) <= |s|
  {
    if s != [] {
      CountDisjoint(s[..|s| - 1], p, q);
    }
  }

  /** A sum of non-negative values is non-negative. */
  lemma {:induction false} SumWhereNonNegative<T>(s: seq<T>, p: T -> bool, f: T -> real)
    requires forall x :: x in s && p(x) ==> f(x) >= 0.0
    ensures SumWhere(s, p, f) >= 0.0
  {
    if s != [] {
      SumWhereNonNegative(s[..|s| - 1], p, f);
    }
  }
}
