/** The modal's title and what the form derives from it.

    The title is the only carrier of the editor's mode: the inputs are read-only and
    the Cancel/Submit row is hidden exactly when the first space-separated word of the
    title is "View", and the submit button's label depends on whether the title is
    exactly "Add Product".
 */
module Titles {

  const Space := ' '
  const AddTitle := "Add Product"
  const AddLabel := "Add Product"
  const UpdateLabel := "Update Product"

  /** `s.split(sep)` for a one-character separator: the maximal runs between separators,
      with an empty piece for each leading, trailing or doubled separator. */
  function Split(s: string, sep: char): (parts: seq<string>)
    ensures |parts| >= 1
    ensures forall i :: 0 <= i < |parts| ==> sep !in parts[i]
    decreases |s|
  {
    if |s| == 0 then [""]
    else
      var rest := Split(s[1..], sep);
      if s[0] == sep then [""] + rest
      else [[s[0]] + rest[0]] + rest[1..]
  }

  /** `parts.join(sep)`. */
  function Join(parts: seq<string>, sep: char): string
    requires |parts| >= 1
    decreases |parts|
  {
    if |parts| == 1 then parts[0] else parts[0] + [sep] + Join(parts[1..], sep)
  }

  /** Joining the pieces of a split gives back the string. */
  lemma {:induction false} JoinSplit(s: string, sep: char)
    ensures Join(Split(s, sep), sep) == s
    decreases |s|
  {
    if |s| > 0 {
      var rest := Split(s[1..], sep);
      JoinSplit(s[1..], sep);
      if s[0] == sep {
        assert Split(s, sep) == [""] + rest;
        assert ([""] + rest)[1..] == rest;
      } else {
        var parts := [[s[0]] + rest[0]] + rest[1..];
        assert Split(s, sep) == parts;
        if |rest| == 1 {
          assert Join(parts, sep) == [s[0]] + rest[0];
        } else {
          assert parts[1..] == rest[1..];
          assert Join(rest, sep) == rest[0] + [sep] + Join(rest[1..], sep);
        }
        assert s == [s[0]] + s[1..];
      }
    }
  }

  /** Splitting a join of separator-free pieces gives back the pieces. */
  lemma {:induction false} SplitJoin(parts: seq<string>, sep: char)
    requires |parts| >= 1
    requires forall i :: 0 <= i < |parts| ==> sep !in parts[i]
    ensures Split(Join(parts, sep), sep) == parts
    decreases |parts|, |parts[0]|
  {
    var p := parts[0];
    if |p| == 0 {
      if |parts| > 1 {
        SplitJoin(parts[1..], sep);
        var j := Join(parts, sep);
        assert j == [sep] + Join(parts[1..], sep);
        assert j[1..] == Join(parts[1..], sep);
        assert [""] + parts[1..] == parts;
      }
    } else {
      var tail := [p[1..]] + parts[1..];
      assert tail[0] == p[1..];
      assert tail[1..] == parts[1..];
      forall i | 0 <= i < |tail|
        ensures sep !in tail[i]
      {
        if i == 0 {
          assert forall c :: c in p[1..] ==> c in p;
        } else {
          assert tail[i] == parts[i];
        }
      }
      SplitJoin(tail, sep);
      var j := Join(parts, sep);
      assert Join(tail, sep) == j[1..] by {
        if |parts| == 1 {
        } else {
          assert Join(tail, sep) == p[1..] + [sep] + Join(parts[1..], sep);
        }
      }
      assert j[0] == p[0];
      assert p[0] != sep by { assert p[0] in p; }
      assert [p[0]] + p[1..] == p;
      assert [p] + parts[1..] == parts;
    }
  }

  /** `title.split(' ')[0]`. */
  function FirstWord(title: string): string
  {
    Split(title, Space)[0]
  }

  /** The first word is the longest space-free prefix of the title. */
  lemma {:induction false} FirstWordIsLongestSpaceFreePrefix(title: string)
    ensures FirstWord(title) <= title
    ensures Space !in FirstWord(title)
    ensures |FirstWord(title)| < |title| ==> title[|FirstWord(title)|] == Space
    decreases |title|
  {
    if |title| > 0 && title[0] != Space {
      FirstWordIsLongestSpaceFreePrefix(title[1..]);
      assert FirstWord(title) == [title[0]] + FirstWord(title[1..]);
    }
  }

  /** A title built as `word + " " + rest` has `word` as its first word. */
  lemma {:induction false} FirstWordOfComposite(word: string, rest: string)
    requires Space !in word
    ensures FirstWord(word + [Space] + rest) == word
    decreases |word|
  {
    var t := word + [Space] + rest;
    if |word| == 0 {
      assert t[0] == Space;
    } else {
      FirstWordOfComposite(word[1..], rest);
      assert t[1..] == word[1..] + [Space] + rest;
      assert t[0] != Space by { assert word[0] in word; }
      assert Space !in word[1..] by { assert forall c :: c in word[1..] ==> c in word; }
      assert [word[0]] + word[1..] == word;
    }
  }

  /** `title.split(' ')[0] === "View"`: the inputs are read-only. */
  predicate IsReadOnly(title: string)
  {
    FirstWord(title) == "View"
  }

  /** `title.split(' ')[0] !== "View"`: the Cancel/Submit row is rendered. */
  predicate ShowsFooter(title: string)
  {
    FirstWord(title) != "View"
  }

  /** The text of the submit button. */
  function SubmitLabel(title: string): (text: string)
    ensures text == AddLabel || text == UpdateLabel
    ensures text == AddLabel <==> title == AddTitle
  {
    if title == AddTitle then AddLabel else UpdateLabel
  }

  /** Read-only mode, stated without splitting: the title is "View" itself or starts
      with "View ". The footer is hidden in exactly the same titles. */
  lemma ReadOnlyIffViewPrefix(title: string)
    ensures IsReadOnly(title) <==> title == "View" || (|title| > 4 && title[..5] == "View ")
    ensures ShowsFooter(title) <==> !IsReadOnly(title)
  {
    FirstWordIsLongestSpaceFreePrefix(title);
    var w := FirstWord(title);
    if title == "View" {
      assert Space !in title;
    } else if |title| > 4 && title[..5] == "View " {
      assert title == "View" + [Space] + title[5..];
      FirstWordOfComposite("View", title[5..]);
    } else if w == "View" {
      assert false;
    }
  }

  /** "Add Product" has first word "Add": editable, with the Cancel/Submit row. */
  lemma AddTitleIsEditable()
    ensures FirstWord(AddTitle) == "Add"
    ensures !IsReadOnly(AddTitle) && ShowsFooter(AddTitle)
  {
    assert AddTitle == "Add" + [Space] + "Product";
    FirstWordOfComposite("Add", "Product");
  }

  /** The three titles the screen builds and the closed session's empty title:
      only the View title is read-only, and only "Add Product" shows the Add label. */
  lemma TitleModes(name: string)
    ensures IsReadOnly("View " + name) && !ShowsFooter("View " + name)
    ensures !IsReadOnly("Update " + name) && ShowsFooter("Update " + name)
    ensures !IsReadOnly(AddTitle) && SubmitLabel(AddTitle) == AddLabel
    ensures !IsReadOnly("") && ShowsFooter("")
    ensures SubmitLabel("Update " + name) == UpdateLabel
  {
    assert "View " + name == "View" + [Space] + name;
    FirstWordOfComposite("View", name);
    assert "Update " + name == "Update" + [Space] + name;
    FirstWordOfComposite("Update", name);
    AddTitleIsEditable();
    assert ("Update " + name)[..7] == "Update ";
  }
}
