/** Cache keys are printed from several fields with colons between them. */
module CacheKeys {
  function Join(parts: seq<string>): string {
    if parts == [] then ""
    else if |parts| == 1 then parts[0]
    else parts[0] + ":" + Join(parts[1..])
  }

  predicate Plain(s: string) {
    ':' !in s
  }

  ghost predicate AllPlain(parts: seq<string>) {
    forall i :: 0 <= i < |parts| ==> Plain(parts[i])
  }

  /** A plain head is determined by the text that follows a colon or ends. */
  lemma {:induction false} HeadDetermined(a: string, x: string, b: string, y: string)
    requires Plain(a) && Plain(b)
    requires a + ":" + x == b + ":" + y
    ensures a == b && x == y
  {
    var s, t := a + ":" + x, b + ":" + y;
    if a == "" || b == "" {
      assert s[0] == t[0];
      assert a == "" ==> x == s[1..];
      assert b == "" ==> y == t[1..];
    } else {
      assert s[1..] == a[1..] + ":" + x && t[1..] == b[1..] + ":" + y;
      HeadDetermined(a[1..], x, b[1..], y);
      assert a == [s[0]] + a[1..] && b == [t[0]] + b[1..];
    }
  }

  lemma {:induction false} JoinInjective(a: seq<string>, b: seq<string>)
    requires |a| == |b| && AllPlain(a) && AllPlain(b)
    requires Join(a) == Join(b)
    ensures a == b
  {
    if |a| > 1 {
      assert Plain(a[0]) && Plain(b[0]);
      HeadDetermined(a[0], Join(a[1..]), b[0], Join(b[1..]));
      JoinInjective(a[1..], b[1..]);
      assert a == [a[0]] + a[1..] && b == [b[0]] + b[1..];
    }
  }

  /** A colon inside a field cannot be told from one between fields. */
  lemma {:induction false} JoinSplits(front: seq<string>, y: string, z: string, back: seq<string>)
    ensures Join(front + [y + ":" + z] + back) == Join(front + [y, z] + back)
  {
    var one, two := front + [y + ":" + z] + back, front + [y, z] + back;
    if front == [] {
      assert one[1..] == back && two[1..] == [z] + back && two[1..][1..] == back;
    } else {
      JoinSplits(front[1..], y, z, back);
      assert one[1..] == front[1..] + [y + ":" + z] + back && two[1..] == front[1..] + [y, z] + back;
    }
  }

  // Counting the colons of a key tells whether its parts had any.

  function Colons(s: string): nat {
    if s == "" then 0 else (if s[0] == ':' then 1 else 0) + Colons(s[1..])
  }

  function AllColons(parts: seq<string>): nat {
    if parts == [] then 0 else Colons(parts[0]) + AllColons(parts[1..])
  }

  lemma {:induction false} ColonsConcat(s: string, t: string)
    ensures Colons(s + t) == Colons(s) + Colons(t)
  {
    if s == "" {
      assert s + t == t;
    } else {
      ColonsConcat(s[1..], t);
      assert (s + t)[1..] == s[1..] + t;
    }
  }

  lemma {:induction false} PlainHasNoColons(s: string)
    ensures Plain(s) <==> Colons(s) == 0
  {
    if s != "" {
      PlainHasNoColons(s[1..]);
      assert s == [s[0]] + s[1..];
    }
  }

  lemma {:induction false} PlainPartsHaveNoColons(parts: seq<string>)
    ensures AllPlain(parts) <==> AllColons(parts) == 0
  {
    if parts != [] {
      PlainHasNoColons(parts[0]);
      PlainPartsHaveNoColons(parts[1..]);
      assert AllPlain(parts) <==> Plain(parts[0]) && AllPlain(parts[1..]) by {
        assert forall i :: 0 <= i < |parts| - 1 ==> parts[1..][i] == parts[i + 1];
        assert forall i :: 0 < i < |parts| ==> parts[i] == parts[1..][i - 1];
      }
    }
  }

  lemma {:induction false} JoinColons(parts: seq<string>)
    requires parts != []
    ensures Colons(Join(parts)) == |parts| - 1 + AllColons(parts)
  {
    if |parts| > 1 {
      JoinColons(parts[1..]);
      ColonsConcat(parts[0] + ":", Join(parts[1..]));
      ColonsConcat(parts[0], ":");
      assert ":"[1..] == "";
    } else {
      assert parts[1..] == [];
    }
  }

  /** As many parts joined into the same key as plain ones are plain too, so
      they are the same. */
  lemma PlainKeysStandAlone(a: seq<string>, b: seq<string>)
    requires |a| == |b| && a != [] && AllPlain(a) && Join(a) == Join(b)
    ensures a == b
  {
    JoinColons(a);
    JoinColons(b);
    PlainPartsHaveNoColons(a);
    PlainPartsHaveNoColons(b);
    JoinInjective(a, b);
  }
}
