/** The Option datatype stands for Go's nil pointers, missing map entries and panics. */
module Options {
  datatype Option<+T> = None | Some(value: T)
}

/** Object references and the string keys under which the relationship record files them. */
module Refs {
  import opened Options

  datatype Ref = Ref(namespace: string, name: string, uid: string)

  /** Kubernetes names, namespaces and UIDs never contain a slash. */
  predicate SlashFree(s: string) {
    '/' !in s
  }

  predicate Valid(r: Ref) {
    SlashFree(r.namespace) && SlashFree(r.name) && SlashFree(r.uid)
  }

  function Key(r: Ref): string {
    r.namespace + "/" + r.name + "/" + r.uid
  }

  /** strings.Split(s, "/"): always at least one token. */
  function Split(s: string): (tokens: seq<string>)
    ensures |tokens| > 0
  {
    if s == "" then [""]
    else
      var rest := Split(s[1..]);
      if s[0] == '/' then [""] + rest else [[s[0]] + rest[0]] + rest[1..]
  }

  /** None is the panic on a key that does not have exactly three tokens. */
  function ParseKey(key: string): Option<Ref> {
    var tokens := Split(key);
    if |tokens| != 3 then None else Some(Ref(tokens[0], tokens[1], tokens[2]))
  }

  /** The inverse of Split. */
  function Join(tokens: seq<string>): string
    requires |tokens| > 0
  {
    if |tokens| == 1 then tokens[0] else tokens[0] + "/" + Join(tokens[1..])
  }

  lemma {:induction false} SplitPrefix(a: string, rest: string)
    requires SlashFree(a)
    ensures Split(a + "/" + rest) == [a] + Split(rest)
    ensures Split(a) == [a]
  {
    if a == "" {
      assert a + "/" + rest == "/" + rest;
      assert ("/" + rest)[1..] == rest;
    } else {
      SplitPrefix(a[1..], rest);
      assert (a + "/" + rest)[1..] == a[1..] + "/" + rest;
      assert [a[0]] + a[1..] == a;
    }
  }

  lemma {:induction false} JoinSplit(s: string)
    ensures Join(Split(s)) == s
    ensures forall t :: t in Split(s) ==> SlashFree(t)
  {
    if s != "" {
      var rest := Split(s[1..]);
      JoinSplit(s[1..]);
      if s[0] == '/' {
        assert ([""] + rest)[1..] == rest;
      } else {
        var tokens := [[s[0]] + rest[0]] + rest[1..];
        assert tokens[1..] == rest[1..];
        assert |rest| > 1 ==> Join(rest) == rest[0] + "/" + Join(rest[1..]);
        forall t | t in tokens ensures SlashFree(t) {
          assert rest[0] in rest;
          assert t == tokens[0] || t in rest[1..];
        }
      }
    }
  }

  /** Parsing undoes formatting exactly on the references without a slash. */
  lemma ParseKeyInvertsKey(r: Ref)
    ensures ParseKey(Key(r)) == Some(r) <==> Valid(r)
  {
    JoinSplit(Key(r));
    if Valid(r) {
      assert Key(r) == r.namespace + "/" + (r.name + "/" + r.uid);
      SplitPrefix(r.namespace, r.name + "/" + r.uid);
      SplitPrefix(r.name, r.uid);
      SplitPrefix(r.uid, "");
    }
  }

  /** Every key that parses is the key of what it parses to. */
  lemma KeyInvertsParseKey(key: string, r: Ref)
    requires ParseKey(key) == Some(r)
    ensures Key(r) == key && Valid(r)
  {
    var tokens := Split(key);
    JoinSplit(key);
    assert tokens[1..][1..] == tokens[2..] == [tokens[2]];
    assert tokens[1..][0] == tokens[1];
    assert Join(tokens[1..]) == tokens[1] + "/" + Join([tokens[2]]);
    assert Join(tokens) == tokens[0] + "/" + (tokens[1] + "/" + tokens[2]);
    assert r.namespace in tokens && r.name in tokens && r.uid in tokens;
  }

  lemma KeyInjective(a: Ref, b: Ref)
    requires Valid(a) && Valid(b) && Key(a) == Key(b)
    ensures a == b
  {
    ParseKeyInvertsKey(a);
    ParseKeyInvertsKey(b);
  }

  /** With slashes in the fields two different references can share a key. */
  lemma KeyCollision()
    ensures exists a: Ref, b: Ref :: a != b && Key(a) == Key(b)
  {
    var a, b := Ref("n", "m/o", "p"), Ref("n/m", "o", "p");
    assert Key(a) == "n/m/o/p" == Key(b);
    assert a.name != b.name by { assert |a.name| != |b.name|; }
  }
}
