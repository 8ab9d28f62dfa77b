/**
 * extract_email_from_text: three regex searches tried in order, the first
 * match cleaned up by removing every whitespace character and then replacing
 * the whole words "at" and "dot" (any case) by "@" and ".".
 * The regex searches themselves are parameters (`Matcher`s).
 */
module EmailExtraction {
  import opened Wrappers
  import opened Text

  /** A regex search over a text: the matched text, or None when nothing matches. */
  type Matcher = string -> Option<string>

  /** The three email patterns, in the order the source tries them. */
  datatype EmailPatterns = EmailPatterns(standard: Matcher, spoken: Matcher, spaced: Matcher)

  /** `re.sub(r'\s+', '', s)`. */
  function RemoveSpaces(s: string): string {
    if s == [] then [] else (if IsSpace(s[0]) then [] else [s[0]]) + RemoveSpaces(s[1..])
  }

  predicate NoSpace(s: string) {
    forall i :: 0 <= i < |s| ==> !IsSpace(s[i])
  }

  predicate AllWordChars(s: string) {
    forall i :: 0 <= i < |s| ==> IsWordChar(s[i])
  }

  /** The lower-case `word` occurs at `i`, in any case, with a word boundary on both sides. */
  predicate WordAt(s: string, word: string, i: nat) {
    && i + |word| <= |s|
    && Lower(s[i..i + |word|]) == word
    && (i == 0 || !IsWordChar(s[i - 1]))
    && (i + |word| == |s| || !IsWordChar(s[i + |word|]))
  }

  function ReplaceFrom(s: string, word: string, repl: string, i: nat): string
    requires |word| > 0
    decreases |s| - i
  {
    if i >= |s| then []
    else if WordAt(s, word, i) then repl + ReplaceFrom(s, word, repl, i + |word|)
    else [s[i]] + ReplaceFrom(s, word, repl, i + 1)
  }

  /** `re.sub(r'\b' + word + r'\b', by, s, flags=re.IGNORECASE)`: leftmost, non-overlapping. */
  function ReplaceWord(s: string, word: string, repl: string): string
    requires |word| > 0
  {
    ReplaceFrom(s, word, repl, 0)
  }

  /** The cleanup applied to a match: whitespace removal first, then "at" and "dot". */
  function Cleanup(m: string): string {
    ReplaceWord(ReplaceWord(RemoveSpaces(m), "at", "@"), "dot", ".")
  }

  /** The first pattern that matches decides; later ones are not consulted. */
  function FirstMatch(text: string, patterns: seq<Matcher>): (r: Option<string>)
    ensures r.None? <==> forall i :: 0 <= i < |patterns| ==> patterns[i](text).None?
    ensures r.Some? ==> exists i :: 0 <= i < |patterns| && r == patterns[i](text)
                                   && forall j :: 0 <= j < i ==> patterns[j](text).None?
  {
    if patterns == [] then None
    else if patterns[0](text).Some? then patterns[0](text)
    else
      var r := FirstMatch(text, patterns[1..]);
      assert forall i :: 1 <= i < |patterns| ==> patterns[i] == patterns[1..][i - 1];
      r
  }

  /**
   * The address found in `text`: the cleaned-up match of the standard pattern,
   * else of the spoken pattern, else of the spaced pattern; None when none matches.
   * A found address never contains whitespace.
   */
  function ExtractEmail(text: string, p: EmailPatterns): (r: Option<string>)
    ensures r.None? <==> p.standard(text).None? && p.spoken(text).None? && p.spaced(text).None?
    ensures p.standard(text).Some? ==> r == Some(Cleanup(p.standard(text).value))
    ensures p.standard(text).None? && p.spoken(text).Some? ==> r == Some(Cleanup(p.spoken(text).value))
    ensures p.standard(text).None? && p.spoken(text).None? && p.spaced(text).Some?
            ==> r == Some(Cleanup(p.spaced(text).value))
    ensures r.Some? ==> NoSpace(r.value)
  {
    var patterns := [p.standard, p.spoken, p.spaced];
    assert patterns[0](text) == p.standard(text) && patterns[1](text) == p.spoken(text);
    assert patterns[2](text) == p.spaced(text);
    match FirstMatch(text, patterns)
    case None => None
    case Some(m) =>
      CleanupHasNoSpace(m);
      Some(Cleanup(m))
  }

  lemma {:induction false} RemoveSpacesHasNoSpace(s: string)
    ensures NoSpace(RemoveSpaces(s))
  {
    if s != [] {
      RemoveSpacesHasNoSpace(s[1..]);
    }
  }

  lemma {:induction false} ReplaceFromKeepsNoSpace(s: string, word: string, repl: string, i: nat)
    requires |word| > 0 && NoSpace(s) && NoSpace(repl)
    ensures NoSpace(ReplaceFrom(s, word, repl, i))
    decreases |s| - i
  {
    if i < |s| {
      if WordAt(s, word, i) {
        ReplaceFromKeepsNoSpace(s, word, repl, i + |word|);
      } else {
        ReplaceFromKeepsNoSpace(s, word, repl, i + 1);
      }
    }
  }

  /** The cleaned-up address contains no whitespace character. */
  lemma CleanupHasNoSpace(m: string)
    ensures NoSpace(Cleanup(m))
  {
    RemoveSpacesHasNoSpace(m);
    var s1 := RemoveSpaces(m);
    ReplaceFromKeepsNoSpace(s1, "at", "@", 0);
    ReplaceFromKeepsNoSpace(ReplaceWord(s1, "at", "@"), "dot", ".", 0);
  }

  lemma {:induction false} RemoveSpacesAppend(a: string, b: string)
    ensures RemoveSpaces(a + b) == RemoveSpaces(a) + RemoveSpaces(b)
  {
    if a == [] {
      assert a + b == b;
    } else {
      assert (a + b)[0] == a[0];
      assert (a + b)[1..] == a[1..] + b;
      RemoveSpacesAppend(a[1..], b);
    }
  }

  lemma {:induction false} RemoveSpacesIdentity(s: string)
    requires NoSpace(s)
    ensures RemoveSpaces(s) == s
  {
    if s != [] {
      RemoveSpacesIdentity(s[1..]);
    }
  }

  lemma {:induction false} ReplaceFromNoMatch(s: string, word: string, repl: string, i: nat)
    requires |word| > 0 && i <= |s|
    requires forall j :: i <= j < |s| ==> !WordAt(s, word, j)
    ensures ReplaceFrom(s, word, repl, i) == s[i..]
    decreases |s| - i
  {
    if i < |s| {
      ReplaceFromNoMatch(s, word, repl, i + 1);
    }
  }

  /** A whole word cannot be found inside a longer or shorter run of word characters. */
  lemma AllWordCharsNoMatch(s: string, word: string, j: nat)
    requires AllWordChars(s) && |s| != |word|
    ensures !WordAt(s, word, j)
  {
  }

  lemma RemoveSpacesPadded(w: string)
    requires NoSpace(w)
    ensures RemoveSpaces([' '] + w + [' ']) == w
  {
    assert RemoveSpaces([' ']) == [];
    RemoveSpacesIdentity(w);
    RemoveSpacesAppend([' '], w);
    RemoveSpacesAppend([' '] + w, [' ']);
  }

  lemma AllWordCharsAppend(a: string, b: string)
    requires AllWordChars(a) && AllWordChars(b)
    ensures AllWordChars(a + b)
  {
    assert forall i :: |a| <= i < |a + b| ==> (a + b)[i] == b[i - |a|];
  }

  lemma AllWordCharsNoSpace(s: string)
    requires AllWordChars(s)
    ensures NoSpace(s)
  {
  }

  /** Gluing spoken pieces: whitespace removal keeps the words and drops the single spaces. */
  lemma RemoveSpacesSpoken(user: string, domain: string, tld: string)
    requires NoSpace(user) && NoSpace(domain) && NoSpace(tld)
    ensures RemoveSpaces(user + " at " + domain + " dot " + tld) == user + "at" + domain + "dot" + tld
  {
    assert " at " == [' '] + "at" + [' '];
    assert " dot " == [' '] + "dot" + [' '];
    RemoveSpacesPadded("at");
    RemoveSpacesPadded("dot");
    RemoveSpacesIdentity(user);
    RemoveSpacesIdentity(domain);
    RemoveSpacesIdentity(tld);
    var x2 := user + " at ";
    var x3 := x2 + domain;
    var x4 := x3 + " dot ";
    RemoveSpacesAppend(user, " at ");
    RemoveSpacesAppend(x2, domain);
    RemoveSpacesAppend(x3, " dot ");
    RemoveSpacesAppend(x4, tld);
  }

  lemma ReplaceWordInsideWord(glued: string, word: string, repl: string)
    requires |word| > 0 && AllWordChars(glued) && |glued| != |word|
    ensures ReplaceWord(glued, word, repl) == glued
  {
    forall j: nat | j < |glued| ensures !WordAt(glued, word, j) {
      AllWordCharsNoMatch(glued, word, j);
    }
    ReplaceFromNoMatch(glued, word, repl, 0);
  }

  /**
   * Because whitespace goes first, a spoken address "user at domain dot tld"
   * made of word characters comes back with "at" and "dot" glued in as letters:
   * "jeff at gmail dot com" becomes "jeffatgmaildotcom", not "jeff@gmail.com".
   */
  lemma SpokenFormUnconverted(user: string, domain: string, tld: string)
    requires |user| > 0 && |domain| > 0 && |tld| > 0
    requires AllWordChars(user) && AllWordChars(domain) && AllWordChars(tld)
    ensures Cleanup(user + " at " + domain + " dot " + tld) == user + "at" + domain + "dot" + tld
    ensures '@' !in Cleanup(user + " at " + domain + " dot " + tld)
  {
    AllWordCharsNoSpace(user);
    AllWordCharsNoSpace(domain);
    AllWordCharsNoSpace(tld);
    RemoveSpacesSpoken(user, domain, tld);
    AllWordCharsAppend(user, "at");
    AllWordCharsAppend(user + "at", domain);
    AllWordCharsAppend(user + "at" + domain, "dot");
    AllWordCharsAppend(user + "at" + domain + "dot", tld);
    var glued := user + "at" + domain + "dot" + tld;
    ReplaceWordInsideWord(glued, "at", "@");
    ReplaceWordInsideWord(glued, "dot", ".");
    assert forall i :: 0 <= i < |glued| ==> glued[i] != '@';
  }
}
