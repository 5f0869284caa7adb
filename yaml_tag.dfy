/** The display name of a job, and its fallback when the payload cannot be
    decoded: the class name pulled out of the handler's YAML type tag by the
    regular expression `!ruby/<word>:<name>` (the `ParseObjectFromYaml`
    constant). */
module Naming {
  import opened Outcomes
  import opened Payloads

  /** Ruby's `\w`: an ASCII letter, digit or underscore. */
  predicate IsWord(c: char) {
    ('a' <= c <= 'z') || ('A' <= c <= 'Z') || ('0' <= c <= '9') || c == '_'
  }

  /** Ruby's `\s`: space, tab, line feed, vertical tab, form feed, carriage return. */
  predicate IsSpace(c: char) {
    c == ' ' || c == '\t' || c == '\n' || c == '\U{000B}' || c == '\U{000C}' || c == '\r'
  }

  const TagPrefix: string := "!ruby/"

  /** The regular expression matches `h` at position `i`, with `h[j]` the
      colon after the tag word and `tok` the capture group `([^\s]+)`. Both
      repetitions are greedy and neither can give back characters, so this
      describes the one match possible at `i`. */
  ghost predicate TagAt(h: string, i: int, j: int, tok: string) {
    && 0 <= i && i + |TagPrefix| < j < |h|
    && h[i..i + |TagPrefix|] == TagPrefix
    && (forall k :: i + |TagPrefix| <= k < j ==> IsWord(h[k]))
    && h[j] == ':'
    && 0 < |tok| && j + 1 + |tok| <= |h| && h[j + 1..j + 1 + |tok|] == tok
    && (forall k :: 0 <= k < |tok| ==> !IsSpace(tok[k]))
    && (j + 1 + |tok| == |h| || IsSpace(h[j + 1 + |tok|]))
  }

  /** The end of the longest run of word characters starting at `k`. */
  function WordEnd(h: string, k: nat): (e: nat)
    requires k <= |h|
    ensures k <= e <= |h|
    ensures forall m :: k <= m < e ==> IsWord(h[m])
    ensures e < |h| ==> !IsWord(h[e])
    decreases |h| - k
  {
    if k < |h| && IsWord(h[k]) then WordEnd(h, k + 1) else k
  }

  /** The end of the longest run of non-space characters starting at `k`. */
  function TokenEnd(h: string, k: nat): (e: nat)
    requires k <= |h|
    ensures k <= e <= |h|
    ensures forall m :: k <= m < e ==> !IsSpace(h[m])
    ensures e < |h| ==> IsSpace(h[e])
    decreases |h| - k
  {
    if k < |h| && !IsSpace(h[k]) then TokenEnd(h, k + 1) else k
  }

  /** The capture of a match anchored at position `i`, if there is one. */
  function MatchAt(h: string, i: nat): (r: Option<string>)
    requires i <= |h|
  {
    if i + |TagPrefix| <= |h| && h[i..i + |TagPrefix|] == TagPrefix then
      var j := WordEnd(h, i + |TagPrefix|);
      if i + |TagPrefix| < j < |h| && h[j] == ':' then
        var e := TokenEnd(h, j + 1);
        if j + 1 < e then Some(h[j + 1..e]) else None
      else None
    else None
  }

  /** A match at `i` has only one shape: its colon and capture are fixed. */
  lemma TagAtUnique(h: string, i: int, j: int, tok: string)
    requires TagAt(h, i, j, tok)
    ensures j == WordEnd(h, i + |TagPrefix|)
    ensures j + 1 + |tok| == TokenEnd(h, j + 1)
  {
  }

  /** `MatchAt` is exactly the match of the regular expression at `i`. */
  lemma MatchAtCorrect(h: string, i: nat)
    requires i <= |h|
    ensures forall j, tok :: TagAt(h, i, j, tok) ==> MatchAt(h, i) == Some(tok)
    ensures MatchAt(h, i).Some? ==> TagAt(h, i, WordEnd(h, i + |TagPrefix|), MatchAt(h, i).value)
  {
    forall j, tok | TagAt(h, i, j, tok) ensures MatchAt(h, i) == Some(tok) {
      TagAtUnique(h, i, j, tok);
    }
  }

  /** The leftmost match at or after position `i` (Ruby's `Regexp#match`
      tries start positions from left to right). */
  function SearchFrom(h: string, i: nat): (r: Option<string>)
    requires i <= |h|
    decreases |h| - i
  {
    match MatchAt(h, i)
    case Some(t) => Some(t)
    case None =>
      if i == |h| then None else SearchFrom(h, i + 1)
  }

  /** `ParseObjectFromYaml.match(handler)[1]`, with None for no match. */
  function ParseObjectFromYaml(h: string): Option<string> {
    SearchFrom(h, 0)
  }

  /** The search answers with the leftmost match from `i` on, and with
      nothing when there is none. */
  lemma {:induction false} SearchFromCorrect(h: string, i: nat)
    requires i <= |h|
    ensures SearchFrom(h, i).Some? ==>
              exists k, j :: i <= k <= |h| && TagAt(h, k, j, SearchFrom(h, i).value)
                && (forall k', j', t' :: i <= k' < k ==> !TagAt(h, k', j', t'))
    ensures SearchFrom(h, i).None? ==> forall k, j, t :: i <= k ==> !TagAt(h, k, j, t)
    decreases |h| - i
  {
    MatchAtCorrect(h, i);
    match MatchAt(h, i)
    case Some(t) =>
      assert TagAt(h, i, WordEnd(h, i + |TagPrefix|), t);
    case None =>
      if i < |h| {
        SearchFromCorrect(h, i + 1);
        if SearchFrom(h, i + 1).Some? {
          var k, j :| i + 1 <= k <= |h| && TagAt(h, k, j, SearchFrom(h, i + 1).value)
                      && (forall k', j', t' :: i + 1 <= k' < k ==> !TagAt(h, k', j', t'));
          assert TagAt(h, k, j, SearchFrom(h, i).value);
        }
      }
  }

  /** The regular expression's semantics: a capture is the capture of the
      leftmost match, and no capture means the handler has no match at all. */
  lemma ParseObjectFromYamlCorrect(h: string)
    ensures ParseObjectFromYaml(h).Some? ==>
              exists k, j :: TagAt(h, k, j, ParseObjectFromYaml(h).value)
                && (forall k', j', t' :: 0 <= k' < k ==> !TagAt(h, k', j', t'))
    ensures ParseObjectFromYaml(h).None? ==> forall k, j, t :: !TagAt(h, k, j, t)
  {
    SearchFromCorrect(h, 0);
  }

  /** Positions holding no `!` cannot start a match, so the search passes over them. */
  lemma {:induction false} SearchSkips(h: string, k: nat, i: nat)
    requires k <= i <= |h|
    requires forall m :: k <= m < i ==> h[m] != '!'
    ensures SearchFrom(h, k) == SearchFrom(h, i)
    decreases i - k
  {
    if k < i {
      assert k + |TagPrefix| <= |h| ==> h[k..k + |TagPrefix|][0] != TagPrefix[0];
      assert MatchAt(h, k) == None;
      SearchSkips(h, k + 1, i);
    }
  }

  /** `WordEnd` stops at the first non-word character. */
  lemma WordEndAt(h: string, k: nat, e: nat)
    requires k <= e < |h|
    requires forall m :: k <= m < e ==> IsWord(h[m])
    requires !IsWord(h[e])
    ensures WordEnd(h, k) == e
  {
  }

  /** When a match exists at `i` and no `!` occurs before `i`, that match is the result. */
  lemma LeftmostOnlyCandidate(h: string, i: nat, j: nat, tok: string)
    requires i <= |h|
    requires TagAt(h, i, j, tok)
    requires forall m :: 0 <= m < i ==> h[m] != '!'
    ensures ParseObjectFromYaml(h) == Some(tok)
  {
    MatchAtCorrect(h, i);
    SearchSkips(h, 0, i);
  }

  /** Every character of `s` is a word character. */
  predicate AllWord(s: string) {
    forall m :: 0 <= m < |s| ==> IsWord(s[m])
  }

  /** No character of `s` is white space. */
  predicate NoSpace(s: string) {
    forall m :: 0 <= m < |s| ==> !IsSpace(s[m])
  }

  /** No character of `s` is `!`. */
  predicate NoBang(s: string) {
    forall m :: 0 <= m < |s| ==> s[m] != '!'
  }

  /** A handler holding a well-formed tag, with no `!` before it, yields the
      class name written in the tag. */
  lemma TagRecovered(pre: string, word: string, tok: string, post: string)
    requires NoBang(pre)
    requires 0 < |word| && AllWord(word)
    requires 0 < |tok| && NoSpace(tok)
    requires post == [] || IsSpace(post[0])
    ensures ParseObjectFromYaml(pre + TagPrefix + word + ":" + tok + post) == Some(tok)
  {
    var h := pre + TagPrefix + word + ":" + tok + post;
    var i := |pre|;
    var j := i + |TagPrefix| + |word|;
    assert TagAt(h, i, j, tok) by {
      assert h[i..i + |TagPrefix|] == TagPrefix;
      assert forall k :: i + |TagPrefix| <= k < j ==> h[k] == word[k - i - |TagPrefix|];
      assert h[j] == ':';
      assert h[j + 1..j + 1 + |tok|] == tok;
      assert j + 1 + |tok| < |h| ==> h[j + 1 + |tok|] == post[0];
    }
    assert forall m :: 0 <= m < i ==> h[m] != '!' by {
      assert forall m :: 0 <= m < i ==> h[m] == pre[m];
    }
    LeftmostOnlyCandidate(h, i, j, tok);
  }

  /** A handler whose only `!` starts a tag word followed by something other
      than a colon (a class tag `!ruby/class Name`) has no match. */
  lemma UntaggedHandler(pre: string, word: string, post: string)
    requires NoBang(pre)
    requires 0 < |word| && AllWord(word)
    requires 0 < |post| && post[0] != ':' && !IsWord(post[0])
    requires NoBang(post)
    ensures ParseObjectFromYaml(pre + TagPrefix + word + post) == None
  {
    var h := pre + TagPrefix + word + post;
    var i := |pre|;
    var e := i + |TagPrefix| + |word|;
    assert SearchFrom(h, 0) == SearchFrom(h, i) by {
      assert forall m :: 0 <= m < i ==> h[m] == pre[m];
      SearchSkips(h, 0, i);
    }
    assert MatchAt(h, i) == None by {
      assert forall k :: i + |TagPrefix| <= k < e ==> h[k] == word[k - i - |TagPrefix|];
      assert h[e] == post[0];
      WordEndAt(h, i + |TagPrefix|, e);
    }
    assert SearchFrom(h, i + 1) == SearchFrom(h, |h|) by {
      SingleBang(pre, word, post);
      SearchSkips(h, i + 1, |h|);
    }
  }

  /** The `!` of the tag prefix is the only one in such a handler. */
  lemma SingleBang(pre: string, word: string, post: string)
    requires AllWord(word)
    requires NoBang(post)
    ensures var h := pre + TagPrefix + word + post;
            forall m :: |pre| < m < |h| ==> h[m] != '!'
  {
    var h := pre + TagPrefix + word + post;
    var i := |pre|;
    var e := i + |TagPrefix| + |word|;
    forall m | i < m < |h| ensures h[m] != '!' {
      if m < i + |TagPrefix| {
        assert h[m] == TagPrefix[m - i];
      } else if m < e {
        assert h[m] == word[m - i - |TagPrefix|];
      } else {
        assert h[m] == post[m - e];
      }
    }
  }

  /** The tag of an instance, `--- !ruby/object:Autoloaded::InstanceClazz {}`,
      yields its class name. */
  lemma ObjectTagExample(pre: string, word: string, tok: string, post: string)
    requires pre == "--- " && word == "object" && post == " {}\n"
    requires tok == "Autoloaded::InstanceClazz"
    ensures ParseObjectFromYaml(pre + TagPrefix + word + ":" + tok + post) == Some(tok)
  {
    assert NoSpace(tok) by {}
    assert AllWord(word) && NoBang(pre) by {}
    TagRecovered(pre, word, tok, post);
  }

  /** The tag of a struct instance, `--- !ruby/struct:Autoloaded::InstanceStruct {}`,
      yields its class name. */
  lemma StructTagExample(pre: string, word: string, tok: string, post: string)
    requires pre == "--- " && word == "struct" && post == " {}"
    requires tok == "Autoloaded::InstanceStruct"
    ensures ParseObjectFromYaml(pre + TagPrefix + word + ":" + tok + post) == Some(tok)
  {
    assert NoSpace(tok) by {}
    assert AllWord(word) && NoBang(pre) by {}
    TagRecovered(pre, word, tok, post);
  }

  /** A class tag, `--- !ruby/class Autoloaded::Clazz`, has a space where the
      colon would be: no match. */
  lemma ClassTagExample(pre: string, word: string, post: string)
    requires pre == "--- " && word == "class" && post == " Autoloaded::Clazz\n"
    ensures ParseObjectFromYaml(pre + TagPrefix + word + post) == None
  {
    assert AllWord(word) && NoBang(pre) && NoBang(post) by {}
    UntaggedHandler(pre, word, post);
  }

  /** The name `name` computes once the payload lookup has answered `pr`:
      `display_name` when the payload has one, otherwise its class name; on a
      DeserializationError the class name in the handler's type tag, and a
      NoMethodError (from `nil[1]`) when the handler has no such tag. */
  function NameFrom(pr: Result<Payload>, handler: string): (r: Result<string>)
    ensures pr.Ok? && pr.value.displayName.Some? ==> r == Ok(pr.value.displayName.value)
    ensures pr.Ok? && pr.value.displayName.None? ==> r == Ok(pr.value.className)
    ensures pr.Err? && pr.error.kind == DeserializationError ==>
              (r.Ok? <==> exists k, j, t :: TagAt(handler, k, j, t))
    ensures pr.Err? && pr.error.kind == DeserializationError && r.Ok? ==>
              exists k, j :: TagAt(handler, k, j, r.value)
                && (forall k', j', t' :: 0 <= k' < k ==> !TagAt(handler, k', j', t'))
    ensures pr.Err? && pr.error.kind == DeserializationError && r.Err? ==> r.error.kind == NoMethodError
    ensures pr.Err? && pr.error.kind != DeserializationError ==> r == Err(pr.error)
  {
    ParseObjectFromYamlCorrect(handler);
    match pr
    case Ok(p) => Ok(if p.displayName.Some? then p.displayName.value else p.className)
    case Err(e) =>
      if e.kind == DeserializationError then
        match ParseObjectFromYaml(handler)
        case Some(t) => Ok(t)
        case None => Err(Exception(NoMethodError, "undefined method `[]' for nil:NilClass"))
      else Err(e)
  }
}
