/** Values shared by every module of the model. */
module Common {

  /** A value that may be absent: the source's `null` and `undefined`. */
  datatype Option<+T> = None | Some(value: T)

  /** A call that returns a value or throws. */
  datatype Result<+T, +E> = Ok(value: T) | Err(error: E)

  /** `platform_owner` is a role of tokens only; user rows have the other three. */
  datatype Role = Waiter | Manager | Owner | PlatformOwner

  function Min(a: int, b: int): int { if a <= b then a else b }

  function Max(a: int, b: int): int { if a >= b then a else b }

  lemma OneMore<T>(a: set<T>, b: set<T>, x: T, grows: bool)
    requires x !in a && forall y :: y in b <==> y in a || (grows && y == x)
    ensures |b| == |a| + if grows then 1 else 0
  {
    assert b == if grows then a + {x} else a;
  }

  lemma {:induction false} SubsetIsSmaller<T>(a: set<T>, b: set<T>)
    requires a <= b
    ensures |a| <= |b|
  {
    if a != {} {
      var x :| x in a;
      SubsetIsSmaller(a - {x}, b - {x});
    }
  }
}

/** Whole-string replacement of one character, as `String.prototype.replace` does it. */
module Strings {

  /** `s.replace(/c/g, entity)` for a one-character pattern. */
  function ReplaceAll(s: string, c: char, entity: string): string {
    if s == "" then "" else (if s[0] == c then entity else [s[0]]) + ReplaceAll(s[1..], c, entity)
  }

  lemma {:induction false} ReplaceAllConcat(a: string, b: string, c: char, entity: string)
    ensures ReplaceAll(a + b, c, entity) == ReplaceAll(a, c, entity) + ReplaceAll(b, c, entity)
  {
    if a == "" {
      assert a + b == b;
    } else {
      assert (a + b)[1..] == a[1..] + b;
      ReplaceAllConcat(a[1..], b, c, entity);
    }
  }

  lemma {:induction false} ReplaceAllAbsent(s: string, c: char, entity: string)
    requires c !in s
    ensures ReplaceAll(s, c, entity) == s
  {
    if s != "" {
      ReplaceAllAbsent(s[1..], c, entity);
    }
  }
}
