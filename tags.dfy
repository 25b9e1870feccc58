/** Tag lists as the entry dialogs edit them: one text field holding the tags
    separated by commas (EditEntryDialog.tsx, TopicDetailView.tsx). */
module Tags {
  import opened Text
  import Seqs

  /** `pieces.map(t => t.trim())`. */
  function TrimEach(pieces: seq<string>): (r: seq<string>)
    ensures |r| == |pieces|
    ensures forall i :: 0 <= i < |r| ==> r[i] == Trim(pieces[i])
  {
    seq(|pieces|, i requires 0 <= i < |pieces| => Trim(pieces[i]))
  }

  /** `Boolean` as a filter on strings: the empty string is falsy. */
  function NonEmpty(t: string): bool {
    t != []
  }

  /** `text.split(',').map(t => t.trim()).filter(Boolean)`. */
  function ParseTags(text: string): (tags: seq<string>)
    ensures forall i :: 0 <= i < |tags| ==> IsTag(tags[i])
  {
    var pieces := TrimEach(Split(text, ','));
    var tags := Seqs.Filter(pieces, NonEmpty);
    Seqs.FilterMembers(pieces, NonEmpty);
    assert forall i :: 0 <= i < |tags| ==> IsTag(tags[i]) by {
      forall i | 0 <= i < |tags| ensures IsTag(tags[i]) {
        var j :| 0 <= j < |pieces| && pieces[j] == tags[i];
        assert ',' !in Split(text, ',')[j];
        TrimChars(Split(text, ',')[j]);
      }
    }
    tags
  }

  /** `tags.join(', ')`: how a tag list is shown in the text field. */
  function FormatTags(tags: seq<string>): string {
    Join(tags, ", ")
  }

  /** What the parser produces: a non-empty, trimmed piece without a comma. */
  predicate IsTag(t: string) {
    t != [] && IsTrimmed(t) && ',' !in t
  }

  lemma TrimEachAppend(a: seq<string>, b: seq<string>)
    ensures TrimEach(a + b) == TrimEach(a) + TrimEach(b)
  {
  }

  /** The text before a comma and the text after it are parsed independently, and
      their tags come out in that order. */
  lemma ParseTagsConcat(a: string, b: string)
    ensures ParseTags(a + "," + b) == ParseTags(a) + ParseTags(b)
  {
    SplitConcat(a, b, ',');
    TrimEachAppend(Split(a, ','), Split(b, ','));
    Seqs.FilterAppend(TrimEach(Split(a, ',')), TrimEach(Split(b, ',')), NonEmpty);
  }

  lemma CommaIsNotWhitespace(w: string)
    requires AllWhitespace(w)
    ensures ',' !in w
  {
  }

  /** A text without commas is one piece: its trimmed form, or no tag when blank. */
  lemma ParseSinglePiece(x: string)
    requires ',' !in x
    ensures ParseTags(x) == if Trim(x) == [] then [] else [Trim(x)]
  {
    SplitNoSeparator(x, ',');
    assert TrimEach([x]) == [Trim(x)];
  }

  lemma FirstTagAfterWhitespace(w: string, t: string)
    requires AllWhitespace(w) && IsTag(t)
    ensures ParseTags(w + t) == [t]
  {
    CommaIsNotWhitespace(w);
    TrimWhitespacePrefix(w, t);
    TrimTrimmed(t);
    ParseSinglePiece(w + t);
  }

  lemma FormatCons(w: string, t: string, rest: seq<string>)
    requires rest != []
    ensures w + FormatTags([t] + rest) == (w + t) + "," + (" " + FormatTags(rest))
  {
    JoinCons(t, rest, ", ");
  }

  lemma ParseFormatCons(w: string, t: string, rest: seq<string>)
    requires AllWhitespace(w) && IsTag(t) && rest != []
    requires ParseTags(" " + FormatTags(rest)) == rest
    ensures ParseTags(w + FormatTags([t] + rest)) == [t] + rest
  {
    FormatCons(w, t, rest);
    FirstTagAfterWhitespace(w, t);
    ParseTagsConcat(w + t, " " + FormatTags(rest));
  }

  lemma {:induction false} ParseFormatAfterWhitespace(w: string, tags: seq<string>)
    requires AllWhitespace(w)
    requires forall i :: 0 <= i < |tags| ==> IsTag(tags[i])
    ensures ParseTags(w + FormatTags(tags)) == tags
    decreases |tags|
  {
    if |tags| == 0 {
      CommaIsNotWhitespace(w);
      assert w + FormatTags(tags) == w;
      ParseSinglePiece(w);
      TrimBlank(w);
    } else if |tags| == 1 {
      FirstTagAfterWhitespace(w, tags[0]);
      assert w + FormatTags(tags) == w + tags[0];
    } else {
      var t, rest := tags[0], tags[1..];
      assert tags == [t] + rest;
      ParseFormatAfterWhitespace(" ", rest);
      ParseFormatCons(w, t, rest);
    }
  }

  /** Showing a tag list and parsing the text back gives the same list, provided every
      tag is non-empty, trimmed and free of commas. */
  lemma ParseFormatRoundTrip(tags: seq<string>)
    requires forall i :: 0 <= i < |tags| ==> IsTag(tags[i])
    ensures ParseTags(FormatTags(tags)) == tags
  {
    ParseFormatAfterWhitespace([], tags);
    assert [] + FormatTags(tags) == FormatTags(tags);
  }

  /** Parsing is a normal form: showing parsed tags and parsing again changes nothing. */
  lemma ParseFormatParse(text: string)
    ensures ParseTags(FormatTags(ParseTags(text))) == ParseTags(text)
  {
    ParseFormatRoundTrip(ParseTags(text));
  }
}
