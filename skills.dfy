/**
 * The skills importer of the survey page: the free-text answer "What skills do
 * you currently possess? (comma separated)" becomes skill ids that are merged
 * into the learned-skill set of the career graph.
 */
module SkillImport {
  import opened Text

  /** `skillNameToIdMap`: common spellings of a skill to the skill's id. */
  const SkillAliases: map<string, string> := map[
    "html/css" := "html_css", "html" := "html_css", "css" := "html_css",
    "javascript" := "javascript", "js" := "javascript",
    "typescript" := "typescript", "ts" := "typescript",
    "react" := "react", "react.js" := "react",
    "node.js" := "nodejs", "node" := "nodejs",
    "express" := "express", "express.js" := "express",
    "python" := "python",
    "fastapi" := "fastapi",
    "pandas" := "pandas",
    "numpy" := "numpy",
    "sql" := "sql",
    "docker" := "docker"
  ]

  /** Every alias is written in lower case, so lower-cased input can hit every entry. */
  lemma AliasesAreLowerCase()
    ensures forall k :: k in SkillAliases ==> IsLowerCase(k)
  {
  }

  /** The three HTML spellings share one id, and so do the two React spellings. */
  lemma AliasTable()
    ensures SkillAliases["html"] == SkillAliases["css"] == SkillAliases["html/css"] == "html_css"
    ensures SkillAliases["react.js"] == SkillAliases["react"] == "react"
  {
  }

  /** `s.trim().toLowerCase()` */
  function Normalize(part: string): string
  {
    ToLower(Trim(part))
  }

  /** The `.map(...)` and `.filter(Boolean)` steps: normalise every piece and drop the empty ones, keeping their order. */
  function CleanTokens(parts: seq<string>): (tokens: seq<string>)
    ensures forall t :: t in tokens <==> t != [] && exists j :: 0 <= j < |parts| && Normalize(parts[j]) == t
    ensures |tokens| <= |parts|
  {
    if parts == [] then []
    else
      var t := Normalize(parts[0]);
      var rest := CleanTokens(parts[1..]);
      assert forall j :: 0 < j < |parts| ==> parts[1..][j - 1] == parts[j];
      (if t == [] then [] else [t]) + rest
  }

  /** `skillsText.split(',').map(s => s.trim().toLowerCase()).filter(Boolean)` */
  function Tokens(text: string): seq<string>
  {
    CleanTokens(Split(text, ','))
  }

  /** Lower-casing keeps white space, commas and every other non-letter. */
  lemma LowerCharKeepsNonLetters(c: char)
    ensures IsSpace(LowerChar(c)) <==> IsSpace(c)
    ensures LowerChar(c) == ',' <==> c == ','
  {
  }

  lemma TrimKeepsComma(part: string)
    requires ',' !in part
    ensures ',' !in Trim(part)
  {
    var r := Trim(part);
    var a, b :| 0 <= a <= b <= |part| && r == part[a..b] && AllSpace(part[..a]) && AllSpace(part[b..]);
    assert forall m :: 0 <= m < |r| ==> r[m] == part[a + m];
  }

  /** A normalised comma-free piece is lower-case, comma-free and has no white space at its ends. */
  lemma NormalizeClean(part: string)
    requires ',' !in part
    ensures var t := Normalize(part);
      IsLowerCase(t) && ',' !in t && (t != [] ==> !IsSpace(t[0]) && !IsSpace(t[|t| - 1]))
  {
    var r := Trim(part);
    var t := ToLower(r);
    ToLowerLowers(r);
    TrimKeepsComma(part);
    forall m | 0 <= m < |t| ensures t[m] != ',' {
      LowerCharKeepsNonLetters(r[m]);
    }
    if t != [] {
      LowerCharKeepsNonLetters(r[0]);
      LowerCharKeepsNonLetters(r[|r| - 1]);
    }
  }

  /** Tokens are non-empty, lower-case, free of commas and of surrounding white space. */
  lemma TokensAreClean(text: string, t: string)
    requires t in Tokens(text)
    ensures t != [] && IsLowerCase(t) && ',' !in t
    ensures !IsSpace(t[0]) && !IsSpace(t[|t| - 1])
  {
    var parts := Split(text, ',');
    var j :| 0 <= j < |parts| && Normalize(parts[j]) == t;
    NormalizeClean(parts[j]);
  }

  /**
   * The id a token stands for: its alias entry, or the token itself. This is
   * the lookup as evidently intended; see `SkillIdAsWritten` for the lookup as
   * the source performs it.
   */
  function SkillId(token: string): (id: string)
    ensures token in SkillAliases ==> id == SkillAliases[token]
    ensures token !in SkillAliases ==> id == token
  {
    if token in SkillAliases then SkillAliases[token] else token
  }

  /** The ids of a list of tokens. */
  function IdsOf(tokens: seq<string>): set<string>
  {
    set t | t in tokens :: SkillId(t)
  }

  lemma IdsOfSnoc(tokens: seq<string>, t: string)
    ensures IdsOf(tokens + [t]) == IdsOf(tokens) + {SkillId(t)}
  {
    assert forall u :: u in tokens + [t] <==> u in tokens || u == t;
  }

  /** The ids that importing `text` adds. */
  function ImportedIds(text: string): set<string>
  {
    IdsOf(Tokens(text))
  }

  /** Add the id of every token in turn. */
  method AddIds(learned: set<string>, tokens: seq<string>) returns (updated: set<string>)
    ensures updated == learned + IdsOf(tokens)
  {
    updated := learned;
    for i := 0 to |tokens|
      invariant updated == learned + IdsOf(tokens[..i])
    {
      assert tokens[..i + 1] == tokens[..i] + [tokens[i]];
      IdsOfSnoc(tokens[..i], tokens[i]);
      updated := updated + {SkillId(tokens[i])};
    }
    assert tokens[..|tokens|] == tokens;
  }

  /**
   * The `setLearnedSkillIds` update of `next`: a fresh set holding the
   * previously learned ids, to which the id of every token is added in turn.
   */
  method ImportSkills(learned: set<string>, text: string) returns (updated: set<string>)
    ensures updated == learned + ImportedIds(text)
    ensures learned <= updated
  {
    updated := AddIds(learned, Tokens(text));
  }

  /** Importing the same text a second time adds nothing more. */
  method ImportTwice(learned: set<string>, text: string) returns (once: set<string>, twice: set<string>)
    ensures once == twice
    ensures learned <= once
  {
    once := ImportSkills(learned, text);
    twice := ImportSkills(once, text);
  }

  /** Every character of a piece of a split occurs in the text. */
  lemma {:induction false} SplitPartsChars(s: string, sep: char, i: int, k: int)
    requires 0 <= i < |Split(s, sep)| && 0 <= k < |Split(s, sep)[i]|
    ensures Split(s, sep)[i][k] in s
    decreases |s|
  {
    var parts := Split(s, sep);
    if sep in s {
      var n := IndexOf(s, sep);
      var rest := Split(s[n + 1..], sep);
      assert parts == [s[..n]] + rest;
      if i == 0 {
        assert parts[0][k] == s[k];
      } else {
        assert parts[i] == rest[i - 1];
        SplitPartsChars(s[n + 1..], sep, i - 1, k);
        var m :| 0 <= m < |s[n + 1..]| && s[n + 1..][m] == parts[i][k];
        assert s[n + 1 + m] == parts[i][k];
      }
    } else {
      assert parts[i][k] == s[k];
    }
  }

  /** Every character of a join comes from a part or from the separator. */
  lemma {:induction false} JoinChars(parts: seq<string>, sep: string, c: char)
    requires c in Join(parts, sep)
    ensures c in sep || exists i :: 0 <= i < |parts| && c in parts[i]
  {
    if |parts| > 1 {
      if c !in parts[0] && c !in sep {
        JoinChars(parts[1..], sep, c);
        var i :| 0 <= i < |parts[1..]| && c in parts[1..][i];
        assert c in parts[i + 1];
      }
    }
  }

  /** A text of only white space and commas. */
  predicate Blank(text: string) {
    forall k :: 0 <= k < |text| ==> IsSpace(text[k]) || text[k] == ','
  }

  /** Importing adds something exactly when the text holds more than white space and commas. */
  lemma BlankImportsNothing(text: string)
    ensures ImportedIds(text) == {} <==> Blank(text)
  {
    var parts := Split(text, ',');
    if Blank(text) {
      forall j | 0 <= j < |parts| ensures Normalize(parts[j]) == [] {
        forall k | 0 <= k < |parts[j]| ensures IsSpace(parts[j][k]) {
          SplitPartsChars(text, ',', j, k);
        }
        TrimEmptyIffAllSpace(parts[j]);
      }
      assert forall t :: t !in Tokens(text);
      assert forall id :: id !in ImportedIds(text);
    } else {
      var k :| 0 <= k < |text| && !IsSpace(text[k]) && text[k] != ',';
      JoinSplit(text, ',');
      assert text[k] in Join(parts, [',']);
      JoinChars(parts, [','], text[k]);
      var j :| 0 <= j < |parts| && text[k] in parts[j];
      TrimEmptyIffAllSpace(parts[j]);
      assert Normalize(parts[j]) in Tokens(text);
      assert SkillId(Normalize(parts[j])) in ImportedIds(text);
    }
  }

  /** A text without commas yields its normalised form as its only token, unless that is empty. */
  lemma SinglePieceTokens(text: string)
    requires ',' !in text
    ensures Tokens(text) == if Normalize(text) == [] then [] else [Normalize(text)]
  {
    assert Split(text, ',') == [text];
    assert [text][1..] == [];
  }

  lemma ReactTrimmed()
    ensures Trim(" React.JS ") == "React.JS"
  {
    assert " React.JS " == " " + "React.JS" + " ";
    TrimPadded(" ", "React.JS", " ");
  }

  lemma ReactLowered()
    ensures ToLower("React.JS") == "react.js"
  {
  }

  lemma ReactNormalized()
    ensures Normalize(" React.JS ") == "react.js"
  {
    ReactTrimmed();
    ReactLowered();
  }

  lemma ReactNoComma()
    ensures ',' !in " React.JS "
  {
  }

  /** The example of the input's placeholder behaviour: " React.JS " is one token, "react.js". */
  lemma ReactTokens()
    ensures Tokens(" React.JS ") == ["react.js"]
  {
    ReactNoComma();
    ReactNormalized();
    SinglePieceTokens(" React.JS ");
  }

  lemma ReactAlias()
    ensures SkillId("react.js") == "react"
  {
  }

  lemma IdsOfSingle(t: string)
    ensures IdsOf([t]) == {SkillId(t)}
  {
    assert t in [t];
  }

  /** ... and that token is imported as the id "react". */
  lemma ReactExample()
    ensures ImportedIds(" React.JS ") == {"react"}
  {
    ReactTokens();
    IdsOfSingle("react.js");
    ReactAlias();
  }

  // ----- The lookup as the source performs it -----

  /** What `skillNameToIdMap[name] || name` can evaluate to in JavaScript. */
  datatype JsValue = JsString(s: string) | InheritedMember(name: string)

  /**
   * The members every object literal inherits from `Object.prototype`; a
   * property read `skillNameToIdMap[name]` finds them, and all are truthy.
   */
  const ObjectPrototypeMembers: set<string> := {
    "constructor", "__proto__", "hasOwnProperty", "isPrototypeOf", "propertyIsEnumerable",
    "toString", "toLocaleString", "valueOf",
    "__defineGetter__", "__defineSetter__", "__lookupGetter__", "__lookupSetter__"
  }

  /** `skillNameToIdMap[name] || name`: own entries, then inherited members, then the token itself. */
  function SkillIdAsWritten(token: string): (v: JsValue)
    ensures v.InheritedMember? <==> token !in SkillAliases && token in ObjectPrototypeMembers
  {
    if token in SkillAliases then JsString(SkillAliases[token])
    else if token in ObjectPrototypeMembers then InheritedMember(token)
    else JsString(token)
  }

  /** Apart from "constructor" and "__proto__", every inherited member name has a capital letter. */
  lemma InheritedNamesHaveCapitals()
    ensures forall m :: m in ObjectPrototypeMembers && m != "constructor" && m != "__proto__" ==> !IsLowerCase(m)
  {
    forall m | m in ObjectPrototypeMembers && m != "constructor" && m != "__proto__" ensures !IsLowerCase(m) {
      if m == "hasOwnProperty" { assert 'A' <= m[3] <= 'Z'; }
      else if m == "isPrototypeOf" { assert 'A' <= m[2] <= 'Z'; }
      else if m == "propertyIsEnumerable" { assert 'A' <= m[8] <= 'Z'; }
      else if m == "toString" { assert 'A' <= m[2] <= 'Z'; }
      else if m == "toLocaleString" { assert 'A' <= m[2] <= 'Z'; }
      else if m == "valueOf" { assert 'A' <= m[5] <= 'Z'; }
      else if m == "__defineGetter__" { assert 'A' <= m[8] <= 'Z'; }
      else if m == "__defineSetter__" { assert 'A' <= m[8] <= 'Z'; }
      else if m == "__lookupGetter__" { assert 'A' <= m[8] <= 'Z'; }
      else { assert 'A' <= m[8] <= 'Z'; }
    }
  }

  /**
   * Among lower-cased tokens exactly "constructor" and "__proto__" reach an
   * inherited member; every other token gets the intended id.
   */
  lemma AsWrittenDiffersOnlyOnInheritedNames(token: string)
    requires IsLowerCase(token)
    ensures SkillIdAsWritten(token).InheritedMember? <==> token == "constructor" || token == "__proto__"
    ensures !SkillIdAsWritten(token).InheritedMember? ==> SkillIdAsWritten(token) == JsString(SkillId(token))
  {
    InheritedNamesHaveCapitals();
  }

  lemma ConstructorNormalized()
    ensures Normalize("constructor") == "constructor"
  {
    var s := "constructor";
    assert s == [] + s + [];
    TrimPadded([], s, []);
    ConstructorLowered();
  }

  lemma ConstructorLowered()
    ensures ToLower("constructor") == "constructor"
  {
  }

  lemma ConstructorNoComma()
    ensures ',' !in "constructor"
  {
  }

  lemma ConstructorTokens()
    ensures Tokens("constructor") == ["constructor"]
  {
    ConstructorNormalized();
    ConstructorNoComma();
    SinglePieceTokens("constructor");
  }

  lemma ConstructorNotAlias()
    ensures "constructor" !in SkillAliases
  {
  }

  /** The typed skill "constructor" adds JavaScript's `Object` function to the learned set instead of the id "constructor". */
  lemma ConstructorIsNotImportedAsItself()
    ensures "constructor" in Tokens("constructor")
    ensures SkillIdAsWritten("constructor") == InheritedMember("constructor")
    ensures SkillId("constructor") == "constructor"
  {
    ConstructorTokens();
    ConstructorNotAlias();
    assert "constructor" in ObjectPrototypeMembers;
  }
}
