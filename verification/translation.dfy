/**
 * The translation provider: the current language (Spanish by default,
 * persisted under "language"), and `t`, which resolves a dot-separated key
 * path through that language's nested dictionary and then fills in
 * `{name}` placeholders with `String.prototype.replace`.
 */
module Translation {
  import opened JsSemantics

  /** A dictionary: nested objects whose leaves are strings. */
  datatype Node = Leaf(text: string) | Branch(children: map<string, Node>)

  datatype Language = En | Es

  function LanguageCode(lang: Language): string
  {
    match lang
    case En => "en"
    case Es => "es"
  }

  const LanguageKey: string := "language"

  /** The stored language the provider adopts on mount, if the stored text names one. */
  function SavedLanguage(storage: map<string, string>): (lang: Option<Language>)
    ensures forall l :: lang == Some(l) <==> LanguageKey in storage && storage[LanguageKey] == LanguageCode(l)
  {
    var saved := Get(storage, LanguageKey);
    if Truthy(saved) && saved.value == "en" then Some(En)
    else if Truthy(saved) && saved.value == "es" then Some(Es)
    else None
  }

  /** A language written by `setLanguage` is the one a later mount reads back. */
  lemma SavedLanguageRoundTrip(storage: map<string, string>, lang: Language)
    ensures SavedLanguage(storage[LanguageKey := LanguageCode(lang)]) == Some(lang)
  {
  }

  // ---------------------------------------------------------------------
  // Key paths: `path.split('.')`

  /** `s.split('.')`: the pieces between dots, empty pieces included. */
  function Split(s: string): (parts: seq<string>)
    ensures |parts| >= 1
    ensures forall i :: 0 <= i < |parts| ==> '.' !in parts[i]
  {
    if s == [] then [""]
    else
      var rest := Split(s[1..]);
      if s[0] == '.' then [""] + rest
      else [[s[0]] + rest[0]] + rest[1..]
  }

  /** `parts.join('.')`. */
  function Join(parts: seq<string>): string
    requires |parts| >= 1
  {
    if |parts| == 1 then parts[0] else parts[0] + "." + Join(parts[1..])
  }

  /** Joining the pieces of a split gives back the path. */
  lemma {:induction false} JoinSplit(s: string)
    ensures Join(Split(s)) == s
  {
    if s != [] {
      JoinSplit(s[1..]);
      var rest := Split(s[1..]);
      if s[0] == '.' {
        assert s == "." + s[1..];
      } else {
        if |rest| == 1 {
          assert s == [s[0]] + rest[0];
        } else {
          assert Join(rest) == rest[0] + "." + Join(rest[1..]);
          assert s == [s[0]] + Join(rest);
        }
      }
    }
  }

  /** A character other than a dot joins the first piece. */
  lemma SplitNonDot(ch: char, s: string)
    requires ch != '.'
    ensures Split([ch] + s) == [[ch] + Split(s)[0]] + Split(s)[1..]
  {
    assert ([ch] + s)[1..] == s;
  }

  /** A dot-free word followed by more text begins the first piece. */
  lemma {:induction false} SplitDotFreePrefix(w: string, t: string)
    requires '.' !in w
    ensures Split(w + t) == [w + Split(t)[0]] + Split(t)[1..]
  {
    if w == [] {
      assert w + t == t;
      assert w + Split(t)[0] == Split(t)[0];
      assert Split(t) == [Split(t)[0]] + Split(t)[1..];
    } else {
      var r := Split(t);
      SplitDotFreePrefix(w[1..], t);
      assert w[0] != '.' by { assert w[0] in w; }
      assert w + t == [w[0]] + (w[1..] + t);
      SplitNonDot(w[0], w[1..] + t);
      assert [w[0]] + (w[1..] + r[0]) == w + r[0];
    }
  }

  /** Splitting dot-free pieces joined by dots gives back the pieces. */
  lemma {:induction false} SplitJoin(parts: seq<string>)
    requires |parts| >= 1
    requires forall i :: 0 <= i < |parts| ==> '.' !in parts[i]
    ensures Split(Join(parts)) == parts
  {
    if |parts| == 1 {
      SplitDotFreePrefix(parts[0], "");
      assert parts[0] + "" == parts[0];
    } else {
      var tail := Join(parts[1..]);
      SplitJoin(parts[1..]);
      SplitDotFreePrefix(parts[0], "." + tail);
      assert Split("." + tail) == [""] + Split(tail) by {
        assert ("." + tail)[1..] == tail;
      }
      assert parts[0] + "" == parts[0];
      assert parts[0] + "." + tail == parts[0] + ("." + tail);
    }
  }

  // ---------------------------------------------------------------------
  // Descending the dictionary

  /**
   * The node reached by following `keys` from `node`, or None as soon as a
   * segment is missing (`current[key] === undefined`).
   */
  function Lookup(node: Node, keys: seq<string>): (r: Option<Node>)
    ensures keys == [] ==> r == Some(node)
    ensures keys != [] && (node.Leaf? || keys[0] !in node.children) ==> r == None
    ensures keys != [] && r.Some? ==> node.Branch? && keys[0] in node.children
  {
    if keys == [] then Some(node)
    else match node
      case Leaf(_) => None
      case Branch(children) =>
        if keys[0] in children then Lookup(children[keys[0]], keys[1..]) else None
  }

  /** Descending a path is descending its first part, then the rest from where that ended. */
  lemma {:induction false} LookupAppend(node: Node, a: seq<string>, b: seq<string>)
    ensures Lookup(node, a + b) == match Lookup(node, a)
                                   case None => None
                                   case Some(m) => Lookup(m, b)
  {
    if a == [] {
      assert a + b == b;
    } else {
      assert (a + b)[0] == a[0] && (a + b)[1..] == a[1..] + b;
      match node
      case Leaf(_) =>
      case Branch(children) =>
        if a[0] in children {
          LookupAppend(children[a[0]], a[1..], b);
        }
    }
  }

  /** A segment missing at depth k makes the whole path missing. */
  lemma MissingSegment(node: Node, keys: seq<string>, k: nat)
    requires k < |keys|
    requires Lookup(node, keys[..k]).Some?
    requires var n := Lookup(node, keys[..k]).value; n.Leaf? || keys[k] !in n.children
    ensures Lookup(node, keys) == None
  {
    LookupAppend(node, keys[..k], keys[k..]);
    assert keys[..k] + keys[k..] == keys;
  }

  // ---------------------------------------------------------------------
  // Placeholder substitution: `translation.replace(`{${key}}`, value)`

  predicate OccursAt(s: string, pat: string, i: nat)
  {
    i + |pat| <= |s| && s[i..i + |pat|] == pat
  }

  /** `s.indexOf(pat, from)`: the first occurrence at or after `from`. */
  function IndexOf(s: string, pat: string, from: nat): (r: Option<nat>)
    ensures r.Some? ==> from <= r.value && OccursAt(s, pat, r.value)
    ensures r.Some? ==> forall j :: from <= j < r.value ==> !OccursAt(s, pat, j)
    ensures r.None? ==> forall j :: from <= j ==> !OccursAt(s, pat, j)
    decreases |s| - from
  {
    if from + |pat| > |s| then None
    else if s[from..from + |pat|] == pat then Some(from)
    else IndexOf(s, pat, from + 1)
  }

  /**
   * GetSubstitution of ECMAScript for a string pattern (no capture groups):
   * in the replacement, "$$" is a dollar sign, "$&" the matched text, "$`"
   * the text before the match, "$'" the text after it; every other "$" is
   * literal. A replacement without a dollar sign is inserted as it is.
   */
  function Expand(replacement: string, before: string, matched: string, after: string): (r: string)
    ensures '$' !in replacement ==> r == replacement
    ensures |replacement| >= 2 && replacement[0] == '$' && '$' !in replacement[2..] ==>
      && (replacement[1] == '$' ==> r == "$" + replacement[2..])
      && (replacement[1] == '&' ==> r == matched + replacement[2..])
      && (replacement[1] == '`' ==> r == before + replacement[2..])
      && (replacement[1] == '\'' ==> r == after + replacement[2..])
  {
    if replacement == [] then []
    else if replacement[0] == '$' && |replacement| >= 2 then
      var rest := Expand(replacement[2..], before, matched, after);
      match replacement[1]
      case '$' => "$" + rest
      case '&' => matched + rest
      case '`' => before + rest
      case '\'' => after + rest
      case _ => "$" + Expand(replacement[1..], before, matched, after)
    else
      assert replacement == [replacement[0]] + replacement[1..];
      [replacement[0]] + Expand(replacement[1..], before, matched, after)
  }

  /** `s.replace(pat, replacement)` with a string pattern: the first occurrence only. */
  function Replace(s: string, pat: string, replacement: string): (r: string)
    ensures IndexOf(s, pat, 0).None? ==> r == s
    ensures IndexOf(s, pat, 0).Some? && '$' !in replacement ==>
      var i := IndexOf(s, pat, 0).value;
      r == s[..i] + replacement + s[i + |pat|..]
  {
    match IndexOf(s, pat, 0)
    case None => s
    case Some(i) =>
      var before, after := s[..i], s[i + |pat|..];
      before + Expand(replacement, before, pat, after) + after
  }

  /** A value starting with "$&" puts the placeholder itself back before the rest of the value. */
  lemma DollarAmpersandReinsertsMatch(s: string, pat: string, v: string)
    requires '$' !in v
    requires IndexOf(s, pat, 0).Some?
    ensures var i := IndexOf(s, pat, 0).value;
      Replace(s, pat, "$&" + v) == s[..i] + pat + v + s[i + |pat|..]
  {
    var replacement := "$&" + v;
    assert replacement[2..] == v;
  }

  function Placeholder(key: string): string
  {
    "{" + key + "}"
  }

  predicate Contains(s: string, pat: string)
  {
    IndexOf(s, pat, 0).Some?
  }

  /**
   * The `forEach` over the parameters, in entry order: each one replaces its
   * first placeholder. Parameters whose placeholders do not occur leave the
   * text unchanged.
   */
  function SubstituteAll(s: string, params: seq<(string, string)>): (r: string)
    ensures (forall i :: 0 <= i < |params| ==> !Contains(s, Placeholder(params[i].0))) ==> r == s
  {
    if params == [] then s
    else
      var last := params[|params| - 1];
      Replace(SubstituteAll(s, params[..|params| - 1]), Placeholder(last.0), last.1)
  }

  // ---------------------------------------------------------------------
  // `t(path, params)`

  /**
   * What `t` hands back. `Text` is the normal case. A path that ends at an
   * object rather than a string returns that object (`Subtree`), and
   * throws a TypeError as soon as a parameter is applied to it (an object
   * has no `replace`).
   */
  datatype Translated = Text(value: string) | Subtree(node: Node) | TypeError

  /**
   * Specification of `t` on the dictionary of the current language: a
   * missing segment gives back the path; a leaf is returned with its
   * placeholders filled; an object is returned as it is, and throws once a
   * parameter is applied to it.
   */
  function Translate(dict: Node, path: string, params: Option<seq<(string, string)>>): (r: Translated)
    ensures Lookup(dict, Split(path)).None? ==> r == Text(path)
    ensures r.TypeError? <==>
      && Lookup(dict, Split(path)).Some? && Lookup(dict, Split(path)).value.Branch?
      && params.Some? && params.value != []
    ensures r.Subtree? ==> r.node.Branch? && Lookup(dict, Split(path)) == Some(r.node)
    ensures var found := Lookup(dict, Split(path));
      found.Some? && found.value.Branch? && !(params.Some? && params.value != []) ==> r == Subtree(found.value)
    ensures var found := Lookup(dict, Split(path));
      found.Some? && found.value.Leaf? && (params.None? || params.value == []) ==> r == Text(found.value.text)
    ensures var found := Lookup(dict, Split(path));
      found.Some? && found.value.Leaf? && params.Some? ==> r == Text(SubstituteAll(found.value.text, params.value))
  {
    match Lookup(dict, Split(path))
    case None => Text(path)
    case Some(Leaf(s)) => Text(if params.Some? then SubstituteAll(s, params.value) else s)
    case Some(Branch(_)) =>
      if params.Some? && params.value != [] then TypeError else Subtree(Lookup(dict, Split(path)).value)
  }

  /** A missing segment at any depth yields the path itself, with no substitution. */
  lemma MissingKeyReturnsPath(dict: Node, path: string, k: nat, params: Option<seq<(string, string)>>)
    requires k < |Split(path)|
    requires Lookup(dict, Split(path)[..k]).Some?
    requires var n := Lookup(dict, Split(path)[..k]).value; n.Leaf? || Split(path)[k] !in n.children
    ensures Translate(dict, path, params) == Text(path)
  {
    MissingSegment(dict, Split(path), k);
  }

  /** `t("a.b.c")` descends "a", then "b", then "c"; a leaf reached is returned as it is without params. */
  lemma DottedPathDescends(dict: Node, keys: seq<string>, text: string)
    requires |keys| >= 1
    requires forall i :: 0 <= i < |keys| ==> '.' !in keys[i]
    requires Lookup(dict, keys) == Some(Leaf(text))
    ensures Translate(dict, Join(keys), None) == Text(text)
    ensures Translate(dict, Join(keys), Some([])) == Text(text)
  {
    SplitJoin(keys);
  }

  /** With a dollar-free value, one parameter fills the first `{key}` and nothing else. */
  lemma OneParamFillsFirstPlaceholder(dict: Node, path: string, text: string, key: string, value: string)
    requires Lookup(dict, Split(path)) == Some(Leaf(text))
    requires '$' !in value
    ensures var r := Translate(dict, path, Some([(key, value)]));
      match IndexOf(text, Placeholder(key), 0)
      case None => r == Text(text)
      case Some(i) => r == Text(text[..i] + value + text[i + |Placeholder(key)|..])
  {
    assert [(key, value)][..0] == [];
    assert SubstituteAll(text, [(key, value)]) == Replace(text, Placeholder(key), value);
  }

  /** The first loop of `t`: `current = current[key]` for each key, stopping at the first missing one. */
  method Descend(root: Node, keys: seq<string>) returns (found: Option<Node>)
    ensures found == Lookup(root, keys)
  {
    var current := root;
    var i := 0;
    while i < |keys|
      invariant 0 <= i <= |keys|
      invariant Lookup(root, keys) == Lookup(current, keys[i..])
    {
      match current
      case Leaf(_) =>
        return None;
      case Branch(children) =>
        if keys[i] !in children {
          return None;
        }
        assert keys[i..][1..] == keys[i + 1..];
        current := children[keys[i]];
      i := i + 1;
    }
    return Some(current);
  }

  /** The second loop of `t`: each parameter, in entry order, replaces its first placeholder. */
  method FillPlaceholders(text: string, entries: seq<(string, string)>) returns (translation: string)
    ensures translation == SubstituteAll(text, entries)
  {
    translation := text;
    var j := 0;
    while j < |entries|
      invariant 0 <= j <= |entries|
      invariant translation == SubstituteAll(text, entries[..j])
    {
      assert entries[..j + 1][..j] == entries[..j];
      translation := Replace(translation, Placeholder(entries[j].0), entries[j].1);
      j := j + 1;
    }
    assert entries[..|entries|] == entries;
  }

  /**
   * The provider: the current language, the two dictionaries, and the
   * browser storage the language is persisted in.
   */
  class TranslationProvider {
    var language: Language
    var storage: map<string, string>
    const en: Node
    const es: Node

    /** `useState<Language>('es')`: the provider starts in Spanish. */
    constructor (en: Node, es: Node, storage: map<string, string>)
      ensures language == Es && this.storage == storage
      ensures this.en == en && this.es == es
    {
      this.en := en;
      this.es := es;
      this.storage := storage;
      language := Es;
    }

    /** `dictionaries[language]`. */
    function Dictionary(): Node
      reads this
    {
      if language == En then en else es
    }

    /** The mount effect: adopt a stored "en" or "es"; the storage is not written. */
    method LoadSavedLanguage()
      modifies this
      ensures storage == old(storage)
      ensures language == match SavedLanguage(storage)
                          case Some(l) => l
                          case None => old(language)
    {
      var saved := Get(storage, LanguageKey);
      if Truthy(saved) && (saved.value == "en" || saved.value == "es") {
        language := if saved.value == "en" then En else Es;
      }
    }

    /** `handleSetLanguage`: switch language and persist it. */
    method SetLanguage(lang: Language)
      modifies this
      ensures language == lang
      ensures storage == old(storage)[LanguageKey := LanguageCode(lang)]
      ensures SavedLanguage(storage) == Some(lang)
    {
      language := lang;
      storage := storage[LanguageKey := LanguageCode(lang)];
      SavedLanguageRoundTrip(old(storage), lang);
    }

    /** `t(path, params)`: walk the key path, then apply each parameter in turn. */
    method T(path: string, params: Option<seq<(string, string)>>) returns (r: Translated)
      ensures r == Translate(Dictionary(), path, params)
    {
      var found := Descend(Dictionary(), Split(path));
      match found
      case None =>
        r := Text(path);
      case Some(Branch(_)) =>
        r := if params.Some? && params.value != [] then TypeError else Subtree(found.value);
      case Some(Leaf(text)) =>
        var translation := text;
        if params.Some? {
          translation := FillPlaceholders(text, params.value);
        }
        r := Text(translation);
    }
  }

  /**
   * A page reload: the language chosen with `setLanguage` is the language a
   * fresh provider over the same storage adopts on mount.
   */
  method LanguageSurvivesReload(en: Node, es: Node, storage: map<string, string>, lang: Language)
    returns (reloaded: Language)
    ensures reloaded == lang
  {
    var before := new TranslationProvider(en, es, storage);
    before.SetLanguage(lang);
    var after := new TranslationProvider(en, es, before.storage);
    after.LoadSavedLanguage();
    reloaded := after.language;
  }
}
