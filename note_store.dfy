/** The web UI's note store: the note being edited, when it was last
    saved and whether it changed since; saving posts a markdown file whose
    frontmatter describes the note. Clock readings are parameters (`Clock`),
    and the reply of the `/notes` endpoint is one too. */
module NoteStore {
  import opened Common

  /** One reading of `new Date()`: its `toISOString()` and `toLocaleString()`. */
  datatype Clock = Clock(iso: string, locale: string)

  datatype Frontmatter = Frontmatter(
    title: string,
    aliases: seq<string>,
    description: string,
    date: string,
    tags: seq<string>,
    updated: string,
    author: string)

  /** The body posted to `/notes`. */
  datatype Post = Post(filename: string, content: string)

  /** The `/notes` endpoint's reply: whether it is `ok`, and its text. */
  datatype Reply = Reply(ok: bool, text: string)

  const DescriptionLength := 150
  const Ellipsis := "..."
  const Aliases := [""]
  const Tags := ["inbox", "note"]

  // ---------------------------------------------------------------------------
  // Cleaning the description

  predicate IsMarkdownChar(c: char) {
    c in "#*`_"
  }

  /** The characters JavaScript's `\s` matches, which `trim` also strips. */
  predicate JsIsSpace(c: char) {
    || c == '\t' || c == '\n' || c == '\U{B}' || c == '\U{C}' || c == '\r' || c == ' '
    || c == '\U{A0}' || c == '\U{1680}' || ('\U{2000}' <= c <= '\U{200A}')
    || c == '\U{2028}' || c == '\U{2029}' || c == '\U{202F}' || c == '\U{205F}'
    || c == '\U{3000}' || c == '\U{FEFF}'
  }

  predicate NoMarkdown(s: string) {
    forall i :: 0 <= i < |s| ==> !IsMarkdownChar(s[i])
  }

  /** Every space is a plain ' ' and no two follow each other. */
  predicate Normalized(s: string) {
    && (forall i :: 0 <= i < |s| ==> JsIsSpace(s[i]) ==> s[i] == ' ')
    && (forall i :: 0 <= i < |s| - 1 ==> !(s[i] == ' ' && s[i + 1] == ' '))
  }

  predicate Trimmed(s: string) {
    s == [] || (!JsIsSpace(s[0]) && !JsIsSpace(s[|s| - 1]))
  }

  /** `replace(/[#*`_]/g, '')`. */
  function RemoveMarkdown(s: string): (r: string)
    ensures NoMarkdown(r)
    ensures |r| <= |s|
  {
    if s == [] then []
    else (if IsMarkdownChar(s[0]) then [] else [s[0]]) + RemoveMarkdown(s[1..])
  }

  /** `trimStart`: the suffix after the leading spaces. */
  function DropSpaces(s: string): (r: string)
    ensures |r| <= |s| && r == s[|s| - |r|..]
    ensures r == [] || !JsIsSpace(r[0])
  {
    if s == [] || !JsIsSpace(s[0]) then s else DropSpaces(s[1..])
  }

  /** `trimEnd`: the prefix before the trailing spaces. */
  function DropTrailingSpaces(s: string): (r: string)
    ensures |r| <= |s| && r == s[..|r|]
    ensures r == [] || !JsIsSpace(r[|r| - 1])
  {
    if s == [] || !JsIsSpace(s[|s| - 1]) then s else DropTrailingSpaces(s[..|s| - 1])
  }

  /** `replace(/\s+/g, ' ')`: each run of spaces becomes one ' '. */
  function Collapse(s: string): string
    decreases |s|
  {
    if s == [] then []
    else if JsIsSpace(s[0]) then " " + Collapse(DropSpaces(s[1..]))
    else [s[0]] + Collapse(s[1..])
  }

  /** Collapsing empties nothing but the empty text, and starts with a
      ' ' exactly when the input starts with a space. */
  lemma CollapseStart(s: string)
    ensures Collapse(s) == [] <==> s == []
    ensures Collapse(s) != [] ==> (Collapse(s)[0] == ' ' <==> JsIsSpace(s[0]))
  {
  }

  /** After collapsing, every space is a single ' '. */
  lemma {:induction false} CollapseNormalized(s: string)
    ensures Normalized(Collapse(s))
    decreases |s|
  {
    if s != [] {
      var rest := if JsIsSpace(s[0]) then DropSpaces(s[1..]) else s[1..];
      CollapseNormalized(rest);
      CollapseStart(rest);
      var head: string := if JsIsSpace(s[0]) then " " else [s[0]];
      var r := Collapse(s);
      assert r == head + Collapse(rest);
      forall k | 0 <= k < |r| ensures JsIsSpace(r[k]) ==> r[k] == ' ' {
        if k > 0 { assert r[k] == Collapse(rest)[k - 1]; }
      }
      forall k | 0 <= k < |r| - 1 ensures !(r[k] == ' ' && r[k + 1] == ' ') {
        if k > 0 { assert r[k] == Collapse(rest)[k - 1]; }
        assert r[k + 1] == Collapse(rest)[k];
      }
    }
  }

  /** Collapsing adds no markdown character. */
  lemma {:induction false} CollapseNoMarkdown(s: string)
    requires NoMarkdown(s)
    ensures NoMarkdown(Collapse(s))
    decreases |s|
  {
    if s != [] {
      var rest := if JsIsSpace(s[0]) then DropSpaces(s[1..]) else s[1..];
      assert forall k :: 0 <= k < |rest| ==> rest[k] == s[|s| - |rest| + k];
      CollapseNoMarkdown(rest);
      var head: string := if JsIsSpace(s[0]) then " " else [s[0]];
      assert Collapse(s) == head + Collapse(rest);
    }
  }

  /** The cleaned content of `createFrontmatter`. */
  function CleanContent(content: string): (r: string)
    ensures Trimmed(r)
  {
    var d := DropSpaces(Collapse(RemoveMarkdown(content)));
    var r := DropTrailingSpaces(d);
    assert r != [] ==> r[0] == d[0];
    r
  }

  lemma NormalizedSlice(s: string, i: nat, j: nat)
    requires i <= j <= |s| && Normalized(s)
    ensures Normalized(s[i..j])
  {
    assert forall k :: 0 <= k < j - i ==> s[i..j][k] == s[i + k];
  }

  lemma SliceKeepsClean(s: string, i: nat, j: nat)
    requires i <= j <= |s| && NoMarkdown(s) && Normalized(s)
    ensures NoMarkdown(s[i..j]) && Normalized(s[i..j])
  {
    NormalizedSlice(s, i, j);
    assert forall k :: 0 <= k < j - i ==> s[i..j][k] == s[i + k];
  }

  /** The cleaned content has no markdown character, no space but single
      ' ' characters between words, and none at either end; so it fits on
      one line. */
  lemma CleanContentIsClean(content: string)
    ensures var r := CleanContent(content);
      NoMarkdown(r) && Normalized(r) && Trimmed(r) && '\n' !in r
  {
    CleanContentNormalized(content);
    NormalizedHasNoNewline(CleanContent(content));
  }

  lemma CleanContentNormalized(content: string)
    ensures NoMarkdown(CleanContent(content)) && Normalized(CleanContent(content))
  {
    var c := Collapse(RemoveMarkdown(content));
    CollapseNormalized(RemoveMarkdown(content));
    CollapseNoMarkdown(RemoveMarkdown(content));
    var d := DropSpaces(c);
    SliceKeepsClean(c, |c| - |d|, |c|);
    SliceKeepsClean(d, 0, |DropTrailingSpaces(d)|);
  }

  lemma NormalizedHasNoNewline(s: string)
    requires Normalized(s)
    ensures '\n' !in s
  {
    if '\n' in s {
      var i :| 0 <= i < |s| && s[i] == '\n';
      assert JsIsSpace(s[i]);
    }
  }

  lemma {:induction false} RemoveMarkdownOfClean(s: string)
    requires NoMarkdown(s)
    ensures RemoveMarkdown(s) == s
    decreases |s|
  {
    if s != [] {
      RemoveMarkdownOfClean(s[1..]);
    }
  }

  lemma {:induction false} CollapseOfNormalized(s: string)
    requires Normalized(s)
    ensures Collapse(s) == s
    decreases |s|
  {
    if s != [] {
      NormalizedSlice(s, 1, |s|);
      CollapseOfNormalized(s[1..]);
      if JsIsSpace(s[0]) {
        assert s[0] == ' ';
        assert |s| > 1 ==> s[1..][0] != ' ' && !JsIsSpace(s[1..][0]);
        assert DropSpaces(s[1..]) == s[1..];
      }
    }
  }

  /** The note's text proper: its characters that are neither markdown
      characters nor spaces, in order. */
  function Visible(s: string): string {
    if s == [] then []
    else (if IsMarkdownChar(s[0]) || JsIsSpace(s[0]) then [] else [s[0]]) + Visible(s[1..])
  }

  lemma {:induction false} VisibleAppend(a: string, b: string)
    ensures Visible(a + b) == Visible(a) + Visible(b)
    decreases |a|
  {
    if a != [] {
      assert (a + b)[1..] == a[1..] + b;
      VisibleAppend(a[1..], b);
    } else {
      assert a + b == b;
    }
  }

  /** Removing the markdown characters keeps every other character, as
      often as it occurred. */
  lemma {:induction false} RemoveMarkdownCounts(s: string)
    ensures forall x :: !IsMarkdownChar(x) ==> multiset(RemoveMarkdown(s))[x] == multiset(s)[x]
    decreases |s|
  {
    if s != [] {
      RemoveMarkdownCounts(s[1..]);
      assert s == [s[0]] + s[1..];
    }
  }

  /** Removing the markdown characters keeps the text proper, in order. */
  lemma {:induction false} RemoveMarkdownKeepsVisible(s: string)
    ensures Visible(RemoveMarkdown(s)) == Visible(s)
    decreases |s|
  {
    if s != [] {
      var head: string := if IsMarkdownChar(s[0]) then [] else [s[0]];
      VisibleAppend(head, RemoveMarkdown(s[1..]));
      RemoveMarkdownKeepsVisible(s[1..]);
    }
  }

  lemma {:induction false} DropSpacesKeepsVisible(s: string)
    ensures Visible(DropSpaces(s)) == Visible(s)
    decreases |s|
  {
    if s != [] && JsIsSpace(s[0]) {
      DropSpacesKeepsVisible(s[1..]);
    }
  }

  lemma {:induction false} DropTrailingSpacesKeepsVisible(s: string)
    ensures Visible(DropTrailingSpaces(s)) == Visible(s)
    decreases |s|
  {
    if s != [] && JsIsSpace(s[|s| - 1]) {
      var init := s[..|s| - 1];
      assert s == init + [s[|s| - 1]];
      VisibleAppend(init, [s[|s| - 1]]);
      DropTrailingSpacesKeepsVisible(init);
    }
  }

  /** Collapsing the runs of spaces keeps the text proper, in order. */
  lemma {:induction false} CollapseKeepsVisible(s: string)
    ensures Visible(Collapse(s)) == Visible(s)
    decreases |s|
  {
    if s != [] {
      if JsIsSpace(s[0]) {
        var rest := DropSpaces(s[1..]);
        VisibleAppend(" ", Collapse(rest));
        CollapseKeepsVisible(rest);
        DropSpacesKeepsVisible(s[1..]);
      } else {
        VisibleAppend([s[0]], Collapse(s[1..]));
        CollapseKeepsVisible(s[1..]);
      }
    }
  }

  /** Cleaning touches only markdown characters and spacing: every other
      character of the note survives, in order. */
  lemma CleanContentKeepsVisible(content: string)
    ensures Visible(CleanContent(content)) == Visible(content)
  {
    var a := RemoveMarkdown(content);
    var b := Collapse(a);
    var c := DropSpaces(b);
    RemoveMarkdownKeepsVisible(content);
    CollapseKeepsVisible(a);
    DropSpacesKeepsVisible(b);
    DropTrailingSpacesKeepsVisible(c);
  }

  /** Cleaning is idempotent: a cleaned description cleans to itself. */
  lemma CleanContentIdempotent(content: string)
    ensures CleanContent(CleanContent(content)) == CleanContent(content)
  {
    var r := CleanContent(content);
    CleanContentIsClean(content);
    RemoveMarkdownOfClean(r);
    CollapseOfNormalized(r);
  }

  /** The description: the first 150 characters of the cleaned content, and
      "..." after them when it was longer. */
  function Description(clean: string): (d: string)
    ensures |d| <= DescriptionLength + |Ellipsis|
    ensures |d| > DescriptionLength <==> |clean| > DescriptionLength
    ensures var n := if |clean| <= DescriptionLength then |clean| else DescriptionLength;
      n <= |d| && d[..n] == clean[..n]
    ensures |clean| <= DescriptionLength ==> |d| == |clean|
    ensures |clean| > DescriptionLength ==> |d| == DescriptionLength + |Ellipsis| && d[DescriptionLength..] == Ellipsis
  {
    if |clean| <= DescriptionLength then clean else clean[..DescriptionLength] + Ellipsis
  }

  /** `createFrontmatter(content)`, with the clock read once. */
  function CreateFrontmatter(content: string, now: Clock): (fm: Frontmatter)
    ensures fm.title == "Note " + now.locale && fm.date == now.iso && fm.updated == now.iso
    ensures fm.aliases == Aliases && fm.tags == Tags && fm.author == "User"
    ensures fm.description == Description(CleanContent(content))
    ensures |fm.description| <= DescriptionLength + |Ellipsis|
    ensures var clean := CleanContent(content);
      var n := if |clean| <= DescriptionLength then |clean| else DescriptionLength;
      n <= |fm.description| && fm.description[..n] == clean[..n]
  {
    Frontmatter(
      "Note " + now.locale,
      Aliases,
      Description(CleanContent(content)),
      now.iso,
      Tags,
      now.iso,
      "User")
  }

  /** The description written in the frontmatter is one line of at most 153
      characters. */
  lemma FrontmatterDescription(content: string, now: Clock)
    ensures var d := CreateFrontmatter(content, now).description;
      |d| <= 153 && '\n' !in d
  {
    CleanContentIsClean(content);
    DescriptionOneLine(CleanContent(content));
  }

  lemma DescriptionOneLine(clean: string)
    requires '\n' !in clean
    ensures '\n' !in Description(clean)
  {
    if |clean| > DescriptionLength {
      assert forall c :: c in clean[..DescriptionLength] ==> c in clean;
    }
  }

  // ---------------------------------------------------------------------------
  // The file

  /** `items.map(x => `"${x}"`).join(', ')`. */
  function QuotedList(items: seq<string>): string {
    if items == [] then ""
    else if |items| == 1 then "\"" + items[0] + "\""
    else "\"" + items[0] + "\", " + QuotedList(items[1..])
  }

  function FrontmatterBlock(fm: Frontmatter): string {
    "---\n"
    + "title: " + fm.title + "\n"
    + "aliases: [" + QuotedList(fm.aliases) + "]\n"
    + "description: " + fm.description + "\n"
    + "date: " + fm.date + "\n"
    + "tags: [" + QuotedList(fm.tags) + "]\n"
    + "updated: " + fm.updated + "\n"
    + "author: " + fm.author + "\n"
    + "---\n"
  }

  /** The file: the frontmatter block, a blank line, then the note exactly
      as written. */
  function FileContent(fm: Frontmatter, content: string): (r: string)
    ensures |r| >= |content| && r[|r| - |content|..] == content
    ensures StartsWith(r, "---\ntitle: ")
    ensures EndsWith(r[..|r| - |content|], "\n---\n\n")
  {
    var head := FrontmatterBlock(fm) + "\n";
    assert head[..11] == "---\ntitle: ";
    assert (head + content)[..|head|] == head;
    head + content
  }

  /** The fixed lists of the frontmatter, as written. */
  lemma FixedLines()
    ensures QuotedList(Aliases) == "\"\""
    ensures QuotedList(Tags) == "\"inbox\", \"note\""
  {
    assert Tags[1..] == ["note"];
  }

  // ---------------------------------------------------------------------------
  // The file name

  /** `s.split(c)[0]`: the text before the first `c`. */
  function Before(s: string, c: char): (r: string)
    ensures |r| <= |s| && r == s[..|r|]
    ensures c !in r
  {
    if s == [] || s[0] == c then [] else [s[0]] + Before(s[1..], c)
  }

  /** The text after the first `c`. */
  function After(s: string, c: char): string
    requires c in s
  {
    if s[0] == c then s[1..] else After(s[1..], c)
  }

  /** `replace(/:/g, '-')`. */
  function ReplaceColons(s: string): (r: string)
    ensures |r| == |s| && ':' !in r
    ensures forall i :: 0 <= i < |s| ==> r[i] == if s[i] == ':' then '-' else s[i]
  {
    if s == [] then [] else [if s[0] == ':' then '-' else s[0]] + ReplaceColons(s[1..])
  }

  /** `generateUniqueFilename`: the date, a '-', the time to the second with
      '-' for ':', and ".md". The ISO text always has a 'T'. */
  function UniqueFilename(iso: string): (r: string)
    requires 'T' in iso
    ensures EndsWith(r, ".md")
  {
    var r := Before(iso, 'T') + "-" + Before(ReplaceColons(Before(After(iso, 'T'), 'T')), '.') + ".md";
    assert r[|r| - 3..] == ".md";
    r
  }

  /** The time part of the name holds no ':' and no fraction of a second. */
  lemma FilenameParts(iso: string)
    requires 'T' in iso
    ensures var time := Before(ReplaceColons(Before(After(iso, 'T'), 'T')), '.');
      && UniqueFilename(iso) == Before(iso, 'T') + "-" + time + ".md"
      && ':' !in time && '.' !in time
  {
    var t := ReplaceColons(Before(After(iso, 'T'), 'T'));
    var time := Before(t, '.');
    assert forall x :: x in time ==> x in t;
  }

  /** Splitting at the first `c` gives back the two sides. */
  lemma {:induction false} SplitAtFirst(a: string, c: char, b: string)
    requires c !in a
    ensures c in a + [c] + b
    ensures Before(a + [c] + b, c) == a && After(a + [c] + b, c) == b
    decreases |a|
  {
    if a != [] {
      assert (a + [c] + b)[1..] == a[1..] + [c] + b;
      SplitAtFirst(a[1..], c, b);
    }
  }

  lemma {:induction false} BeforeAbsent(a: string, c: char)
    requires c !in a
    ensures Before(a, c) == a
    decreases |a|
  {
    if a != [] {
      BeforeAbsent(a[1..], c);
    }
  }

  lemma {:induction false} ReplaceColonsAppend(a: string, b: string)
    ensures ReplaceColons(a + b) == ReplaceColons(a) + ReplaceColons(b)
    decreases |a|
  {
    if a == [] {
      assert a + b == b;
    } else {
      assert (a + b)[0] == a[0];
      assert (a + b)[1..] == a[1..] + b;
      ReplaceColonsAppend(a[1..], b);
    }
  }

  lemma TimeColons(time: string, fraction: string)
    requires '.' !in time
    ensures ReplaceColons(time + ['.'] + fraction) == ReplaceColons(time) + ['.'] + ReplaceColons(fraction)
    ensures '.' !in ReplaceColons(time)
  {
    assert time + ['.'] + fraction == time + (['.'] + fraction);
    ReplaceColonsAppend(time, ['.'] + fraction);
    ReplaceColonsAppend(['.'], fraction);
    assert ReplaceColons(['.']) == ['.'];
  }

  /** For an ISO text `<date>T<time>.<fraction>` the name is the date, a
      '-', and the time with '-' for ':'. */
  lemma IsoFilename(date: string, time: string, fraction: string)
    requires 'T' !in date && 'T' !in time && 'T' !in fraction && '.' !in time
    ensures 'T' in date + ['T'] + time + ['.'] + fraction
    ensures UniqueFilename(date + ['T'] + time + ['.'] + fraction) == date + "-" + ReplaceColons(time) + ".md"
  {
    var rest := time + ['.'] + fraction;
    assert date + ['T'] + time + ['.'] + fraction == date + ['T'] + rest;
    SplitAtFirst(date, 'T', rest);
    BeforeAbsent(rest, 'T');
    TimeColons(time, fraction);
    SplitAtFirst(ReplaceColons(time), '.', ReplaceColons(fraction));
  }

  // ---------------------------------------------------------------------------
  // The store

  class Store {
    var content: string
    var lastSaved: Option<Clock>
    var isDirty: bool

    /** The initial state: an empty note, never saved, unchanged. */
    constructor ()
      ensures content == "" && lastSaved == None && !isDirty
    {
      content := "";
      lastSaved := None;
      isDirty := false;
    }

    /** `updateContent`: the new text, marked changed; the save time stays. */
    method UpdateContent(newContent: string)
      modifies this
      ensures content == newContent && isDirty && lastSaved == old(lastSaved)
    {
      content := newContent;
      isDirty := true;
    }

    /** `save`: outside a browser nothing is posted; in one, the note's file
        is posted under a name from `fileClock`, with frontmatter from
        `noteClock`, and a reply that is not ok is thrown as an error with
        the state untouched. Otherwise the note is marked saved at
        `savedAt`. The text itself never changes. */
    method Save(browser: bool, fileClock: Clock, noteClock: Clock, reply: Reply, savedAt: Clock)
      returns (post: Option<Post>, filename: Option<string>, err: Option<string>)
      requires 'T' in fileClock.iso
      modifies this
      ensures content == old(content)
      ensures browser ==> post == Some(Post(UniqueFilename(fileClock.iso),
                                           FileContent(CreateFrontmatter(old(content), noteClock), old(content))))
      ensures !browser ==> post.None?
      ensures browser && !reply.ok ==>
        err == Some(reply.text) && filename.None? && lastSaved == old(lastSaved) && isDirty == old(isDirty)
      ensures !browser || reply.ok ==>
        && err.None? && lastSaved == Some(savedAt) && !isDirty
        && filename == (if browser then Some(UniqueFilename(fileClock.iso)) else None)
    {
      filename, post, err := None, None, None;
      if browser {
        var name := UniqueFilename(fileClock.iso);
        var frontmatter := CreateFrontmatter(content, noteClock);
        post := Some(Post(name, FileContent(frontmatter, content)));
        if !reply.ok {
          err := Some(reply.text);
          return;
        }
        filename := Some(name);
      }
      lastSaved := Some(savedAt);
      isDirty := false;
    }

    /** `reset`: back to the initial state. */
    method Reset()
      modifies this
      ensures content == "" && lastSaved == None && !isDirty
    {
      content := "";
      lastSaved := None;
      isDirty := false;
    }
  }
}
