/** A reference written as RFC 6901 prescribes leads to the value at exactly those keys. */
module RedactionPointer {
  import opened Options
  import opened RedactionPlan
  import opened RedactionSchema

  /** Section 3 of RFC 6901: `~` is written `~0` and `/` is written `~1`. */
  function Escape(k: string): string {
    if k == [] then []
    else (if k[0] == '~' then "~0" else if k[0] == '/' then "~1" else [k[0]]) + Escape(k[1..])
  }

  function Tokens(keys: seq<string>): (r: seq<string>)
    ensures |r| == |keys| && forall i :: 0 <= i < |keys| ==> r[i] == Escape(keys[i])
  {
    if keys == [] then [] else [Escape(keys[0])] + Tokens(keys[1..])
  }

  function Join(tokens: seq<string>): string
    requires tokens != []
  {
    if |tokens| == 1 then tokens[0] else tokens[0] + "/" + Join(tokens[1..])
  }

  /** Going down the graph by plain keys. */
  function Descend(h: Heap, v: Value, keys: seq<string>): Option<Value>
    decreases keys
  {
    if keys == [] then Some(v)
    else match Own(h, v, keys[0]) case None => None case Some(w) => Descend(h, w, keys[1..])
  }

  /** Escaping with only the tildes still escaped. */
  function Tildes(k: string): string {
    if k == [] then [] else (if k[0] == '~' then "~0" else [k[0]]) + Tildes(k[1..])
  }

  /** A character that starts no escape is kept. */
  lemma {:induction false} ReplaceKeeps(first: char, rest: string, d: char, c: char)
    requires first != '~' || rest == [] || rest[0] != d
    ensures Replace([first] + rest, d, c) == [first] + Replace(rest, d, c)
  {
    assert ([first] + rest)[1..] == rest;
  }

  lemma {:induction false} ReplaceEscape(rest: string, d: char, c: char)
    ensures Replace(['~', d] + rest, d, c) == [c] + Replace(rest, d, c)
  {
    assert (['~', d] + rest)[2..] == rest;
  }

  lemma {:induction false} SlashesBack(k: string)
    ensures Replace(Escape(k), '1', '/') == Tildes(k)
  {
    if k != [] {
      var rest := Escape(k[1..]);
      SlashesBack(k[1..]);
      if k[0] == '~' {
        assert Escape(k) == ['~'] + (['0'] + rest);
        ReplaceKeeps('~', ['0'] + rest, '1', '/');
        ReplaceKeeps('0', rest, '1', '/');
      } else if k[0] == '/' {
        ReplaceEscape(rest, '1', '/');
      } else {
        ReplaceKeeps(k[0], rest, '1', '/');
      }
    }
  }

  lemma {:induction false} TildesBack(k: string)
    ensures Replace(Tildes(k), '0', '~') == k
  {
    if k != [] {
      var e, rest := Tildes(k), Tildes(k[1..]);
      TildesBack(k[1..]);
      if k[0] == '~' { assert e[2..] == rest; } else { assert e[1..] == rest; }
    }
  }

  lemma {:induction false} EscapeIsEscaped(k: string)
    ensures Escaped(Escape(k)) && '/' !in Escape(k)
  {
    if k != [] {
      EscapeIsEscaped(k[1..]);
      var e, rest := Escape(k), Escape(k[1..]);
      var first := |e| - |rest|;
      assert forall i :: first <= i < |e| ==> e[i] == rest[i - first];
    }
  }

  /** Unescaping undoes escaping for every key, tildes and slashes included. */
  lemma {:induction false} UnescapeEscape(k: string)
    ensures Escaped(Escape(k)) && Unescape(Escape(k)) == k
  {
    EscapeIsEscaped(k);
    SlashesBack(k);
    TildesBack(k);
  }

  lemma {:induction false} SplitOne(t: string)
    requires '/' !in t
    ensures Split(t) == [t]
  {
    if t != [] {
      SplitOne(t[1..]);
      assert [t[0]] + t[1..] == t;
    }
  }

  lemma {:induction false} SplitFirst(t: string, more: string)
    requires '/' !in t
    ensures Split(t + "/" + more) == [t] + Split(more)
  {
    var s := t + "/" + more;
    if t == [] {
      assert s[1..] == more;
    } else {
      assert s[1..] == t[1..] + "/" + more;
      SplitFirst(t[1..], more);
      assert [t[0]] + t[1..] == t;
      assert ([t[1..]] + Split(more))[1..] == Split(more);
    }
  }

  lemma {:induction false} SplitJoin(tokens: seq<string>)
    requires tokens != [] && forall i :: 0 <= i < |tokens| ==> '/' !in tokens[i]
    ensures Split(Join(tokens)) == tokens
  {
    if |tokens| == 1 {
      SplitOne(tokens[0]);
    } else {
      SplitFirst(tokens[0], Join(tokens[1..]));
      SplitJoin(tokens[1..]);
    }
  }

  lemma {:induction false} FollowTokens(h: Heap, v: Value, keys: seq<string>)
    ensures Follow(h, v, Tokens(keys)) == Descend(h, v, keys)
    decreases keys
  {
    if keys != [] {
      UnescapeEscape(keys[0]);
      assert Tokens(keys)[1..] == Tokens(keys[1..]);
      match Own(h, v, keys[0]) {
        case None =>
        case Some(w) => FollowTokens(h, w, keys[1..]);
      }
    }
  }

  /** Writing a path of keys as a pointer and resolving it descends by exactly those keys. */
  lemma {:induction false} ReferenceResolves(c: Context, keys: seq<string>, encoded: string)
    requires c.decode(encoded) == Some(if keys == [] then "" else "/" + Join(Tokens(keys)))
    ensures Reference(c, Str("#" + encoded)) == Descend(c.heap, c.root, keys)
  {
    assert ("#" + encoded)[1..] == encoded;
    if keys != [] {
      forall i | 0 <= i < |keys| ensures '/' !in Tokens(keys)[i] { EscapeIsEscaped(keys[i]); }
      SplitJoin(Tokens(keys));
      assert ("/" + Join(Tokens(keys)))[1..] == Join(Tokens(keys));
      FollowTokens(c.heap, c.root, keys);
    }
  }

  /* ---- Which references resolve ---------------------------------------------------------- */

  /** The pointer of section 3 of RFC 6901 that names these keys. */
  function Written(keys: seq<string>): string { if keys == [] then "" else "/" + Join(Tokens(keys)) }

  /** A local reference: a fragment that decodes to the pointer of some keys, which lead to `w` from the root. */
  ghost predicate Refers(c: Context, ref: Value, w: Value) {
    && ref.Str? && ref.s != "" && ref.s[0] == '#'
    && exists keys :: c.decode(ref.s[1..]) == Some(Written(keys)) && Descend(c.heap, c.root, keys) == Some(w)
  }

  lemma {:induction false} EscapedRest(t: string, n: nat)
    requires Escaped(t) && n <= |t|
    ensures Escaped(t[n..])
  {
    forall i | 0 <= i < |t[n..]| && t[n..][i] == '~'
      ensures i + 1 < |t[n..]| && (t[n..][i + 1] == '0' || t[n..][i + 1] == '1')
    {
      assert t[n + i] == '~';
    }
  }

  /** On tokens, escaping undoes unescaping too. */
  lemma {:induction false} EscapeUnescape(t: string)
    requires Escaped(t) && '/' !in t
    ensures Escape(Unescape(t)) == t
    decreases |t|
  {
    if t != [] {
      var n := if t[0] == '~' then 2 else 1;
      var rest := t[n..];
      EscapedRest(t, n);
      EscapeUnescape(rest);
      var inner := Replace(rest, '1', '/');
      if t[0] != '~' {
        assert t == [t[0]] + rest;
        ReplaceKeeps(t[0], rest, '1', '/');
        ReplaceKeeps(t[0], inner, '0', '~');
      } else if t[1] == '1' {
        assert t == "~1" + rest;
        ReplaceEscape(rest, '1', '/');
        ReplaceKeeps('/', inner, '0', '~');
      } else {
        assert t == ['~'] + (['0'] + rest);
        ReplaceKeeps('~', ['0'] + rest, '1', '/');
        ReplaceKeeps('0', rest, '1', '/');
        assert ['~'] + (['0'] + inner) == ['~', '0'] + inner;
        ReplaceEscape(inner, '0', '~');
      }
    }
  }

  lemma {:induction false} JoinSplit(s: string)
    ensures Join(Split(s)) == s && forall i :: 0 <= i < |Split(s)| ==> '/' !in Split(s)[i]
  {
    if s != [] {
      var rest := Split(s[1..]);
      JoinSplit(s[1..]);
      if s[0] == '/' {
        assert Split(s)[1..] == rest;
      } else {
        assert Split(s)[1..] == rest[1..];
      }
    }
  }

  /** A token list that leads somewhere is the list of tokens of some keys. */
  lemma {:induction false} FollowedKeys(h: Heap, v: Value, tokens: seq<string>) returns (keys: seq<string>)
    requires Follow(h, v, tokens).Some? && forall i :: 0 <= i < |tokens| ==> '/' !in tokens[i]
    ensures Tokens(keys) == tokens
    decreases tokens
  {
    if tokens == [] {
      keys := [];
    } else {
      var k := Unescape(tokens[0]);
      var rest := FollowedKeys(h, Own(h, v, k).value, tokens[1..]);
      EscapeUnescape(tokens[0]);
      keys := [k] + rest;
    }
  }

  /** Exactly the references that are written as pointers to existing values resolve, and to those values. */
  lemma {:induction false} ReferenceIff(c: Context, ref: Value, w: Value)
    ensures Reference(c, ref) == Some(w) <==> Refers(c, ref, w)
  {
    if Refers(c, ref, w) {
      var keys :| c.decode(ref.s[1..]) == Some(Written(keys)) && Descend(c.heap, c.root, keys) == Some(w);
      assert ref.s == "#" + ref.s[1..];
      ReferenceResolves(c, keys, ref.s[1..]);
    }
    if Reference(c, ref) == Some(w) {
      var pointer := c.decode(ref.s[1..]).value;
      var keys: seq<string> := [];
      if pointer != "" {
        JoinSplit(pointer[1..]);
        keys := FollowedKeys(c.heap, c.root, Split(pointer[1..]));
        FollowTokens(c.heap, c.root, keys);
        assert pointer == "/" + pointer[1..];
      }
      assert c.decode(ref.s[1..]) == Some(Written(keys));
    }
  }
}
