/**
 * The rendering logic of one chat message (src/components/Message.js):
 * citation markers in assistant text, the numbering of the source list and
 * its anchors, the marker-click lookup, and the time-stamp fallback.
 */
module MessageComponent {

  import opened Wrappers
  import opened JsText
  import opened ChatRecords

  // ---------------------------------------------------------------------
  // The citation pattern /\[([\d,\s]+)\]/ and `text.split` with it
  // ---------------------------------------------------------------------

  /** A character of the class `[\d,\s]`. */
  predicate IsMarkerChar(c: char) {
    IsDigit(c) || c == ',' || IsWhitespace(c)
  }

  predicate AllMarkerChars(s: string) {
    forall i :: 0 <= i < |s| ==> IsMarkerChar(s[i])
  }

  /** The pattern matches exactly `s[q..e]`: a bracket, one or more class characters, a bracket. */
  predicate IsMatch(s: string, q: int, e: int) {
    && 0 <= q && q + 3 <= e <= |s| && s[q] == '[' && s[e - 1] == ']'
    && forall j :: q < j < e - 1 ==> IsMarkerChar(s[j])
  }

  /** No citation marker occurs anywhere in `t`. */
  ghost predicate HasNoMarker(t: string) {
    forall q, e :: !IsMatch(t, q, e)
  }

  /** No match of the pattern starts in `s[p..q]`. */
  ghost predicate NoMatchStartsIn(s: string, p: int, q: int) {
    forall j, e :: p <= j < q ==> !IsMatch(s, j, e)
  }

  /** How many class characters follow position `i` before anything else. */
  function MarkerRun(s: string, i: nat): (k: nat)
    requires i <= |s|
    ensures i + k <= |s|
    ensures forall j :: i <= j < i + k ==> IsMarkerChar(s[j])
    ensures i + k == |s| || !IsMarkerChar(s[i + k])
    decreases |s| - i
  {
    if i < |s| && IsMarkerChar(s[i]) then 1 + MarkerRun(s, i + 1) else 0
  }

  /**
   * The sticky match of the pattern at `q`: the end of the match, if one
   * starts there. The greedy class run can only be followed by `]` at its end,
   * so backtracking never finds a shorter match.
   */
  function MatchAt(s: string, q: nat): (e: Option<nat>)
    requires q <= |s|
    ensures e.Some? ==> IsMatch(s, q, e.value)
    ensures e.None? ==> forall e' :: !IsMatch(s, q, e')
  {
    if q < |s| && s[q] == '[' then
      var k := MarkerRun(s, q + 1);
      if 1 <= k && q + 1 + k < |s| && s[q + 1 + k] == ']' then Some(q + 2 + k)
      else
        assert forall e' :: !IsMatch(s, q, e') by {
          forall e' | IsMatch(s, q, e') ensures false {
            MatchEndsAtRun(s, q, e', k);
          }
        }
        None
    else None
  }

  /** Any match at `q` closes right after the maximal class run. */
  lemma MatchEndsAtRun(s: string, q: nat, e: int, k: nat)
    requires q + 1 + k <= |s|
    requires forall j :: q + 1 <= j < q + 1 + k ==> IsMarkerChar(s[j])
    requires q + 1 + k == |s| || !IsMarkerChar(s[q + 1 + k])
    requires IsMatch(s, q, e)
    ensures e == q + 2 + k && 1 <= k && s[q + 1 + k] == ']'
  {
    if e - 1 < q + 1 + k {
      assert false;
    } else if e - 1 > q + 1 + k {
      assert false;
    }
  }

  /**
   * `String.prototype.split` with the capturing pattern, resumed with the
   * current text part starting at `p` and the scan at `q`: text parts and
   * captured groups alternate, starting and ending with a text part.
   */
  function SplitFrom(s: string, p: nat, q: nat): (parts: seq<string>)
    requires p <= q <= |s|
    ensures |parts| % 2 == 1
    ensures forall i :: 0 <= i < |parts| && i % 2 == 1 ==> parts[i] != [] && AllMarkerChars(parts[i])
    decreases |s| - q
  {
    if q == |s| then [s[p..]]
    else
      match MatchAt(s, q)
      case Some(e) =>
        var rest := SplitFrom(s, e, e);
        var parts := [s[p..q], s[q + 1..e - 1]] + rest;
        assert forall i :: 2 <= i < |parts| ==> parts[i] == rest[i - 2];
        parts
      case None => SplitFrom(s, p, q + 1)
  }

  /** `text.split(/\[([\d,\s]+)\]/g)`. */
  function SplitOnMarkers(text: string): (parts: seq<string>)
    ensures |parts| % 2 == 1
    ensures forall i :: 0 <= i < |parts| && i % 2 == 1 ==> parts[i] != [] && AllMarkerChars(parts[i])
  {
    SplitFrom(text, 0, 0)
  }

  /** Puts split parts back together: text parts verbatim, each captured group in brackets. */
  function Rebuild(parts: seq<string>): string
    requires |parts| % 2 == 1
    decreases |parts|
  {
    if |parts| == 1 then parts[0] else parts[0] + "[" + parts[1] + "]" + Rebuild(parts[2..])
  }

  lemma {:induction false} SplitFromRebuilds(s: string, p: nat, q: nat)
    requires p <= q <= |s|
    ensures Rebuild(SplitFrom(s, p, q)) == s[p..]
    decreases |s| - q
  {
    if q < |s| {
      match MatchAt(s, q)
      case Some(e) =>
        SplitFromRebuilds(s, e, e);
        var parts := SplitFrom(s, p, q);
        assert parts[2..] == SplitFrom(s, e, e);
        assert s[p..] == s[p..q] + [s[q]] + s[q + 1..e - 1] + [s[e - 1]] + s[e..];
      case None =>
        SplitFromRebuilds(s, p, q + 1);
    }
  }

  /** Round trip: the parts of the split rebuild the original text exactly. */
  lemma SplitOnMarkersRebuilds(text: string)
    ensures Rebuild(SplitOnMarkers(text)) == text
  {
    SplitFromRebuilds(text, 0, 0);
  }

  /** A match inside a slice of `s` is a match in `s` itself. */
  lemma MatchInSlice(s: string, p: nat, q: nat, j: int, e: int)
    requires p <= q <= |s|
    requires IsMatch(s[p..q], j, e)
    ensures IsMatch(s, p + j, p + e)
  {
    forall i | p + j < i < p + e - 1 ensures IsMarkerChar(s[i]) {
      assert s[i] == s[p..q][i - p];
    }
  }

  lemma {:induction false} SplitFromTextHasNoMarker(s: string, p: nat, q: nat)
    requires p <= q <= |s|
    requires NoMatchStartsIn(s, p, q)
    ensures var parts := SplitFrom(s, p, q);
      forall i :: 0 <= i < |parts| && i % 2 == 0 ==> HasNoMarker(parts[i])
    decreases |s| - q
  {
    var parts := SplitFrom(s, p, q);
    if q == |s| {
      assert s[p..] == s[p..|s|];
      forall j, e | IsMatch(s[p..], j, e) ensures false {
        MatchInSlice(s, p, |s|, j, e);
      }
    } else {
      match MatchAt(s, q)
      case Some(e) =>
        SplitFromTextHasNoMarker(s, e, e);
        forall j, e' | IsMatch(s[p..q], j, e') ensures false {
          MatchInSlice(s, p, q, j, e');
        }
        assert forall i :: 2 <= i < |parts| ==> parts[i] == SplitFrom(s, e, e)[i - 2];
      case None =>
        assert NoMatchStartsIn(s, p, q + 1);
        SplitFromTextHasNoMarker(s, p, q + 1);
        assert parts == SplitFrom(s, p, q + 1);
    }
  }

  /**
   * Bracket groups holding anything but digits, commas and white space, and
   * empty brackets, are not markers: no text part contains a marker.
   */
  lemma SplitOnMarkersTextHasNoMarker(text: string)
    ensures var parts := SplitOnMarkers(text);
      forall i :: 0 <= i < |parts| && i % 2 == 0 ==> HasNoMarker(parts[i])
  {
    assert SplitOnMarkers(text) == SplitFrom(text, 0, 0);
    SplitFromTextHasNoMarker(text, 0, 0);
  }

  // ---------------------------------------------------------------------
  // The numbers inside one marker
  // ---------------------------------------------------------------------

  /** `s.split(',')`: the pieces between commas, in order; one more piece than commas. */
  function SplitOnComma(s: string): (pieces: seq<string>)
    ensures |pieces| >= 1
    ensures forall i :: 0 <= i < |pieces| ==> ',' !in pieces[i]
  {
    if s == [] then [""]
    else
      var rest := SplitOnComma(s[1..]);
      if s[0] == ',' then [""] + rest
      else
        var pieces := [[s[0]] + rest[0]] + rest[1..];
        assert forall i :: 1 <= i < |pieces| ==> pieces[i] == rest[i];
        pieces
  }

  /** `pieces.join(',')`. */
  function JoinWithComma(pieces: seq<string>): string
    requires |pieces| >= 1
  {
    if |pieces| == 1 then pieces[0] else pieces[0] + "," + JoinWithComma(pieces[1..])
  }

  /** Round trip: joining the pieces with commas gives back the marker contents. */
  lemma {:induction false} SplitOnCommaJoins(s: string)
    ensures JoinWithComma(SplitOnComma(s)) == s
  {
    if s != [] {
      var rest := SplitOnComma(s[1..]);
      SplitOnCommaJoins(s[1..]);
      if s[0] == ',' {
        assert ([""] + rest)[1..] == rest;
      } else {
        var pieces := [[s[0]] + rest[0]] + rest[1..];
        if |rest| > 1 {
          assert pieces[1..] == rest[1..];
          assert JoinWithComma(rest) == rest[0] + "," + JoinWithComma(rest[1..]);
        }
      }
    }
  }

  /** `num => parseInt(num.trim())` followed by `filter(num => !isNaN(num))`. */
  function ParsedNumbers(pieces: seq<string>): (ns: seq<nat>)
    ensures |ns| <= |pieces|
  {
    if pieces == [] then []
    else
      match ParseInt(Trim(pieces[0]))
      case Some(n) => [n] + ParsedNumbers(pieces[1..])
      case None => ParsedNumbers(pieces[1..])
  }

  /** The numbers of a marker's contents, in order. */
  function MarkerNumbers(contents: string): seq<nat> {
    ParsedNumbers(SplitOnComma(contents))
  }

  /** `numbers[0]`: the number a click on the marker scrolls to; `undefined` is `None`. */
  function MarkerTarget(contents: string): (target: Option<nat>)
    ensures target.None? <==> MarkerNumbers(contents) == []
    ensures target.Some? ==> target.value in MarkerNumbers(contents)
  {
    var numbers := MarkerNumbers(contents);
    if numbers == [] then None else Some(numbers[0])
  }

  /**
   * The first number of a list of pieces is the value of the first piece
   * that parses, and there is none exactly when no piece parses.
   */
  lemma {:induction false} FirstParsedNumber(pieces: seq<string>)
    ensures ParsedNumbers(pieces) == [] <==>
      forall i :: 0 <= i < |pieces| ==> ParseInt(Trim(pieces[i])).None?
    ensures ParsedNumbers(pieces) != [] ==>
      exists i :: 0 <= i < |pieces| && ParseInt(Trim(pieces[i])) == Some(ParsedNumbers(pieces)[0])
        && forall j :: 0 <= j < i ==> ParseInt(Trim(pieces[j])).None?
  {
    if pieces != [] {
      FirstParsedNumber(pieces[1..]);
      if ParseInt(Trim(pieces[0])).None? {
        assert forall i :: 1 <= i < |pieces| ==> pieces[i] == pieces[1..][i - 1];
        if ParsedNumbers(pieces) != [] {
          var i :| 0 <= i < |pieces[1..]| && ParseInt(Trim(pieces[1..][i])) == Some(ParsedNumbers(pieces)[0])
            && forall j :: 0 <= j < i ==> ParseInt(Trim(pieces[1..][j])).None?;
          assert ParseInt(Trim(pieces[i + 1])) == Some(ParsedNumbers(pieces)[0]);
          assert forall j :: 0 <= j < i + 1 ==> ParseInt(Trim(pieces[j])).None? by {
            forall j | 0 <= j < i + 1 ensures ParseInt(Trim(pieces[j])).None? {
              if j > 0 { assert pieces[j] == pieces[1..][j - 1]; }
            }
          }
        }
      }
    }
  }

  /**
   * A marker's target is the number of its first comma-separated piece that
   * begins (after trimming) with a digit; without such a piece it has none.
   */
  lemma MarkerTargetIsFirstNumber(contents: string)
    ensures var pieces := SplitOnComma(contents);
      && (MarkerTarget(contents).None? <==> forall i :: 0 <= i < |pieces| ==> ParseInt(Trim(pieces[i])).None?)
      && (MarkerTarget(contents).Some? ==>
            exists i :: 0 <= i < |pieces| && ParseInt(Trim(pieces[i])) == MarkerTarget(contents)
              && forall j :: 0 <= j < i ==> ParseInt(Trim(pieces[j])).None?)
  {
    FirstParsedNumber(SplitOnComma(contents));
  }

  // ---------------------------------------------------------------------
  // renderMessageText
  // ---------------------------------------------------------------------

  /** What the message body shows: a run of text, or a clickable marker labelled with its contents. */
  datatype Segment = Text(text: string) | Marker(contents: string, target: Option<nat>)

  /** One element of `parts.map((part, index) => ...)`: odd parts become markers targeting their first number. */
  function RenderPart(part: string, index: nat): (seg: Segment)
    ensures seg.Marker? <==> index % 2 == 1
    ensures seg.Marker? ==> seg.contents == part && seg.target == MarkerTarget(part)
    ensures seg.Text? ==> seg.text == part
  {
    if index % 2 == 1 then Marker(part, MarkerTarget(part)) else Text(part)
  }

  /** `parts.map((part, index) => ...)`. */
  function RenderParts(parts: seq<string>): (segs: seq<Segment>)
    ensures |segs| == |parts|
    ensures forall i :: 0 <= i < |parts| ==>
      segs[i] == if i % 2 == 1 then Marker(parts[i], MarkerTarget(parts[i])) else Text(parts[i])
  {
    seq(|parts|, i requires 0 <= i < |parts| => RenderPart(parts[i], i))
  }

  /** `renderMessageText`: user text and empty text are shown as they are; assistant text is segmented. */
  function RenderMessageText(text: string, isUser: bool): (segs: seq<Segment>)
    ensures text == [] || isUser ==> segs == [Text(text)]
    ensures text != [] && !isUser ==> segs == RenderParts(SplitOnMarkers(text))
  {
    if text == [] || isUser then [Text(text)] else RenderParts(SplitOnMarkers(text))
  }

  /** The characters a segment puts on screen: a marker shows its contents in brackets. */
  function Shown(seg: Segment): string {
    match seg
    case Text(t) => t
    case Marker(contents, _) => "[" + contents + "]"
  }

  /** The characters the segments put on screen, in order. */
  function Visible(segs: seq<Segment>): string {
    if segs == [] then [] else Shown(segs[0]) + Visible(segs[1..])
  }

  lemma {:induction false} RenderPartsShowsRebuild(parts: seq<string>)
    requires |parts| % 2 == 1
    ensures Visible(RenderParts(parts)) == Rebuild(parts)
    decreases |parts|
  {
    if |parts| > 1 {
      var segs := RenderParts(parts);
      RenderPartsShowsRebuild(parts[2..]);
      forall i | 0 <= i < |parts| - 2 ensures segs[1..][1..][i] == RenderParts(parts[2..])[i] {
        assert (i + 2) % 2 == i % 2;
      }
      assert segs[1..][1..] == RenderParts(parts[2..]);
      assert Visible(segs) == Shown(segs[0]) + (Shown(segs[1]) + Visible(segs[1..][1..]));
    }
  }

  /** Round trip: what a rendered message shows is exactly its text, markers included. */
  lemma RenderShowsText(text: string, isUser: bool)
    ensures Visible(RenderMessageText(text, isUser)) == text
  {
    if !(text == [] || isUser) {
      RenderPartsShowsRebuild(SplitOnMarkers(text));
      SplitOnMarkersRebuilds(text);
    }
  }

  /** The body of a message: its rendered text, or the placeholder when it has none. */
  function MessageBody(m: Record): (segs: seq<Segment>)
    ensures Visible(segs) == if Truthy(m.text) then m.text.value else ContentPlaceholder
    ensures Truthy(m.text) ==> segs == RenderMessageText(m.text.value, m.role == UserRole)
    ensures !Truthy(m.text) ==> segs == [Text(ContentPlaceholder)]
  {
    if Truthy(m.text) then
      RenderShowsText(m.text.value, m.role == UserRole);
      RenderMessageText(m.text.value, m.role == UserRole)
    else [Text(ContentPlaceholder)]
  }

  // ---------------------------------------------------------------------
  // The source list, its anchors and scrollToCitation
  // ---------------------------------------------------------------------

  /** The sources listed under a message (none when it has no `citations`). */
  function Sources(m: Record): seq<Citation> {
    if m.citations.Some? then m.citations.value else []
  }

  /** `citation.number || (index + 1)`: the number shown for, and anchoring, source `index`. */
  function CitationNumber(c: Citation, index: nat): (n: int)
    ensures n != 0
    ensures c.number.Some? && c.number.value != 0 ==> n == c.number.value
    ensures c.number.None? || c.number.value == 0 ==> n == index + 1
  {
    if c.number.Some? && c.number.value != 0 then c.number.value else index + 1
  }

  /** Source `i` of message `k` carries the anchor `citation-<id>-<n>`. */
  predicate AnchorAt(log: seq<Record>, k: int, i: int, id: int, n: int) {
    && 0 <= k < |log| && 0 <= i < |Sources(log[k])|
    && log[k].id == id && CitationNumber(Sources(log[k])[i], i) == n
  }

  /** The first source of `cs`, from `i` on, whose number is `n`. */
  function FindSource(cs: seq<Citation>, n: int, i: nat): (r: Option<nat>)
    requires i <= |cs|
    ensures r.Some? ==> i <= r.value < |cs| && CitationNumber(cs[r.value], r.value) == n
    ensures forall j :: i <= j < |cs| && (r.None? || j < r.value) ==> CitationNumber(cs[j], j) != n
    decreases |cs| - i
  {
    if i == |cs| then None
    else if CitationNumber(cs[i], i) == n then Some(i)
    else FindSource(cs, n, i + 1)
  }

  /** The first anchor in document order, from message `k` on, for (`id`, `n`). */
  function FindAnchor(log: seq<Record>, id: int, n: int, k: nat): (r: Option<(nat, nat)>)
    requires k <= |log|
    ensures r.Some? ==> k <= r.value.0 && AnchorAt(log, r.value.0, r.value.1, id, n)
    ensures r.Some? ==> forall k', i' :: k <= k' < r.value.0 ==> !AnchorAt(log, k', i', id, n)
    ensures r.Some? ==> forall i' :: 0 <= i' < r.value.1 ==> !AnchorAt(log, r.value.0, i', id, n)
    ensures r.None? ==> forall k', i' :: k <= k' ==> !AnchorAt(log, k', i', id, n)
    decreases |log| - k
  {
    if k == |log| then None
    else if log[k].id == id && FindSource(Sources(log[k]), n, 0).Some? then
      Some((k, FindSource(Sources(log[k]), n, 0).value))
    else FindAnchor(log, id, n, k + 1)
  }

  /**
   * `scrollToCitation(target)` from a marker of message `id`: the element
   * `document.getElementById` returns, as (message index, source index),
   * or `None` when the click is inert.
   */
  function ScrollToCitation(log: seq<Record>, id: int, target: Option<nat>): (hit: Option<(nat, nat)>)
    ensures hit.Some? ==> target.Some? && AnchorAt(log, hit.value.0, hit.value.1, id, target.value)
    ensures hit.None? <==> target.None? || forall k, i :: !AnchorAt(log, k, i, id, target.value)
  {
    if target.None? then None else FindAnchor(log, id, target.value, 0)
  }

  /** Message ids are pairwise distinct. */
  ghost predicate UniqueIds(log: seq<Record>) {
    forall a, b :: 0 <= a < |log| && 0 <= b < |log| && log[a].id == log[b].id ==> a == b
  }

  /**
   * With distinct message ids, a click on a marker of message `k` resolves
   * to one of that message's own sources, and does so exactly when one of
   * them is numbered with the marker's target.
   */
  lemma ClickResolvesWithinMessage(log: seq<Record>, k: nat, target: nat)
    requires UniqueIds(log) && k < |log|
    ensures var hit := ScrollToCitation(log, log[k].id, Some(target));
      && (hit.Some? ==> hit.value.0 == k)
      && (hit.Some? <==> exists i :: 0 <= i < |Sources(log[k])| && CitationNumber(Sources(log[k])[i], i) == target)
  {
    var hit := ScrollToCitation(log, log[k].id, Some(target));
    if exists i :: 0 <= i < |Sources(log[k])| && CitationNumber(Sources(log[k])[i], i) == target {
      var i :| 0 <= i < |Sources(log[k])| && CitationNumber(Sources(log[k])[i], i) == target;
      assert AnchorAt(log, k, i, log[k].id, target);
    }
  }

  // ---------------------------------------------------------------------
  // formatTime
  // ---------------------------------------------------------------------

  /** What the time line of a message shows. */
  datatype TimeLabel = JustNow | LocalTime(epochMillis: int)

  /**
   * `formatTime`: "Just now" when the time stamp is missing or `new Date`
   * cannot parse it (`dateValue` gives the parsed instant, `None` for NaN);
   * otherwise the local time of the parsed instant.
   */
  function FormatTime(timestamp: Option<string>, dateValue: string -> Option<int>): (shown: TimeLabel)
    ensures shown == JustNow <==> !Truthy(timestamp) || dateValue(timestamp.value).None?
    ensures shown.LocalTime? ==> Some(shown.epochMillis) == dateValue(timestamp.value)
  {
    if !Truthy(timestamp) then JustNow
    else
      match dateValue(timestamp.value)
      case None => JustNow
      case Some(t) => LocalTime(t)
  }
}
