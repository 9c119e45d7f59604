/**
 * The draft stock (下書き): splitting a thread text into its parent and
 * replies, saving single drafts and threads, listing drafts with the parts
 * of a thread grouped together, and toggling or deleting a draft together
 * with the rest of its thread.
 */
module Drafts {
  import opened Common
  import opened Store
  import Accounts

  const DraftSheetMissingMessage := "下書きシートが見つかりません"
  const DraftNotFoundMessage := "下書きが見つかりません"
  /** What `getRange` throws when asked for zero rows (a sheet with only its header row). */
  const EmptyRangeMessage := "The number of rows in the range must be at least 1."

  /** A thread holds the parent and at most four replies. */
  const MaxParts: nat := 5

  // ------------------------------------------------------------ splitting a thread text

  /**
   * The separators `String.prototype.split` is given: the marker pattern
   * as intended (【親】, 【親投稿】, 【返信】, 【返信1】, ...), the marker
   * pattern `/【(?:親投稿?|返信\d*)】/` as written, and `/\n\n+/`.
   */
  datatype Separator = Markers | MarkersAsWritten | BlankLine

  /** The character every match of the separator starts with. */
  function FirstChar(sep: Separator): char
  {
    if sep == BlankLine then '\n' else '【'
  }

  /** `【返信\d*】` at the start of `s`: its length, or 0. */
  function ReplyMarkerLen(s: string): (n: nat)
    ensures n <= |s|
    ensures n > 0 ==> s[0] == '【'
  {
    if StartsWith(s, "【返信") then
      assert s[0] == s[..3][0];
      var d := DigitRun(s[3..]);
      if 3 + d < |s| && s[3 + d] == '】' then 4 + d else 0
    else 0
  }

  /** The number of line feeds `s` starts with. */
  function NewlineRun(s: string): (n: nat)
    ensures n <= |s|
    ensures forall i :: 0 <= i < n ==> s[i] == '\n'
    ensures n < |s| ==> s[n] != '\n'
  {
    if |s| > 0 && s[0] == '\n' then 1 + NewlineRun(s[1..]) else 0
  }

  /**
   * The length of the separator match that starts `s`, or 0 when none does
   * (the alternatives and quantifiers admit at most one match at a place).
   */
  function MatchLen(sep: Separator, s: string): (n: nat)
    ensures n <= |s|
    ensures n > 0 ==> s[0] == FirstChar(sep)
  {
    match sep
    case Markers =>
      if StartsWith(s, "【親投稿】") then (assert s[0] == s[..5][0]; 5)
      else if StartsWith(s, "【親】") then (assert s[0] == s[..3][0]; 3)
      else ReplyMarkerLen(s)
    case MarkersAsWritten =>
      if StartsWith(s, "【親投稿】") then (assert s[0] == s[..5][0]; 5)
      else if StartsWith(s, "【親投】") then (assert s[0] == s[..4][0]; 4)
      else ReplyMarkerLen(s)
    case BlankLine =>
      var n := NewlineRun(s);
      if n >= 2 then n else 0
  }

  /**
   * `s.split(sep)` with `cur` already collected into the current piece:
   * the pieces between matches, scanning left to right.
   */
  function Split(sep: Separator, s: string, cur: string): (r: seq<string>)
    ensures |r| >= 1
    decreases |s|
  {
    if s == [] then [cur]
    else
      var n := MatchLen(sep, s);
      if n > 0 then [cur] + Split(sep, s[n..], [])
      else Split(sep, s[1..], cur + [s[0]])
  }

  /** Not blank, and no white space at either end: what `trim()` leaves of a non-blank string. */
  predicate Trimmed(s: string)
  {
    s != "" && !IsSpace(s[0]) && !IsSpace(s[|s| - 1])
  }

  /** The trimmed pieces that are not blank, in order (`trim()` then `if (s) push(s)`). */
  function NonBlank(pieces: seq<string>): (r: seq<string>)
    ensures |r| <= |pieces|
    ensures forall i :: 0 <= i < |r| ==> Trimmed(r[i])
  {
    if |pieces| == 0 then []
    else
      var t := Trim(pieces[0]);
      var rest := NonBlank(pieces[1..]);
      if t == "" then rest
      else
        assert forall i :: 0 < i <= |rest| ==> ([t] + rest)[i] == rest[i - 1];
        [t] + rest
  }

  /** `parseThreadParts_` with the given marker pattern. */
  function ParseWith(text: string, markers: Separator): seq<string>
  {
    if text == "" then [text]
    else
      var parts := NonBlank(Split(markers, text, []));
      if (Contains(text, "【親】") || Contains(text, "【返信")) && |parts| > 1 then Take(parts, MaxParts)
      else
        var blocks := Split(BlankLine, text, []);
        var filtered := NonBlank(blocks);
        if |blocks| >= 2 && |filtered| >= 2 then Take(filtered, MaxParts)
        else [text]
  }

  /** `parseThreadParts_` as written: its marker pattern does not match 【親】. */
  function ParseThreadPartsAsWritten(text: string): seq<string>
  {
    ParseWith(text, MarkersAsWritten)
  }

  /**
   * `parseThreadParts_` with the marker pattern it evidently means
   * (`【(?:親(?:投稿)?|返信\d*)】`): either the text unchanged, or two to
   * five trimmed, non-blank parts.
   */
  function ParseThreadParts(text: string): (r: seq<string>)
    ensures 1 <= |r| <= MaxParts
    ensures r == [text] || (|r| >= 2 && forall i :: 0 <= i < |r| ==> Trimmed(r[i]))
    ensures text == "" ==> r == [""]
  {
    ParseWith(text, Markers)
  }

  // ------------------------------------------------------------ the layout a generated thread is logged in

  /** `'【返信' + k + '】' + r`. */
  function ReplyLine(k: nat, r: string): string
  {
    "【返信" + NatToString(k) + "】" + r
  }

  /** The reply lines numbered from `k`, joined with line feeds. */
  function ReplyText(replies: seq<string>, k: nat): string
    decreases |replies|
  {
    if |replies| == 0 then ""
    else if |replies| == 1 then ReplyLine(k, replies[0])
    else ReplyLine(k, replies[0]) + "\n" + ReplyText(replies[1..], k + 1)
  }

  /** `'【親】' + parent + '\n' + replies.map(...).join('\n')`, replies numbered from 1. */
  function ThreadText(parent: string, replies: seq<string>): string
  {
    "【親】" + parent + "\n" + ReplyText(replies, 1)
  }

  /** A part the generator can produce: not blank, trimmed, and free of 【 and of line feeds. */
  predicate PlainPart(p: string)
  {
    && Trimmed(p)
    && forall i :: 0 <= i < |p| ==> p[i] != '【' && p[i] != '\n'
  }

  /** Text without the separator's first character runs into the current piece. */
  lemma {:induction false} SplitPlain(sep: Separator, p: string, rest: string, cur: string)
    requires forall i :: 0 <= i < |p| ==> p[i] != FirstChar(sep)
    ensures Split(sep, p + rest, cur) == Split(sep, rest, cur + p)
    decreases |p|
  {
    if |p| == 0 {
      assert p + rest == rest && cur + p == cur;
    } else {
      var s := p + rest;
      assert s[0] == p[0];
      assert MatchLen(sep, s) == 0;
      assert s[1..] == p[1..] + rest;
      SplitPlain(sep, p[1..], rest, cur + [p[0]]);
      assert cur + [p[0]] + p[1..] == cur + p;
    }
  }

  /** A separator match closes the current piece. */
  lemma SplitAt(sep: Separator, m: string, rest: string, cur: string)
    requires |m| > 0 && MatchLen(sep, m + rest) == |m|
    ensures Split(sep, m + rest, cur) == [cur] + Split(sep, rest, [])
  {
    assert (m + rest)[|m|..] == rest;
  }

  /** A numbered reply marker is matched whole, by either marker pattern. */
  lemma ReplyMarkerMatched(sep: Separator, k: nat, rest: string)
    requires sep != BlankLine
    ensures MatchLen(sep, "【返信" + NatToString(k) + "】" + rest) == |"【返信" + NatToString(k) + "】"|
  {
    var d := NatToString(k);
    var s := "【返信" + d + "】" + rest;
    assert s[1] == '返';
    assert !StartsWith(s, "【親投稿】") && !StartsWith(s, "【親】") && !StartsWith(s, "【親投】") by {
      assert s[..3][1] == '返';
    }
    assert s[..3] == "【返信";
    assert s[3..] == d + ("】" + rest);
    DigitRunPrefix(d, "】" + rest);
    assert s[3 + |d|] == '】';
  }

  /** The pieces the reply lines split into: each reply with its line feed, the last without. */
  function ReplyPieces(replies: seq<string>): seq<string>
    decreases |replies|
  {
    if |replies| <= 1 then replies
    else [replies[0] + "\n"] + ReplyPieces(replies[1..])
  }

  lemma {:induction false} SplitReplies(sep: Separator, replies: seq<string>, k: nat, cur: string)
    requires sep != BlankLine && |replies| >= 1
    requires forall i :: 0 <= i < |replies| ==> PlainPart(replies[i])
    ensures Split(sep, ReplyText(replies, k), cur) == [cur] + ReplyPieces(replies)
    decreases |replies|
  {
    var m := "【返信" + NatToString(k) + "】";
    var r := replies[0];
    var tail := if |replies| == 1 then "" else "\n" + ReplyText(replies[1..], k + 1);
    assert ReplyText(replies, k) == m + (r + tail);
    calc {
      Split(sep, ReplyText(replies, k), cur);
    == { ReplyMarkerMatched(sep, k, r + tail); SplitAt(sep, m, r + tail, cur); }
      [cur] + Split(sep, r + tail, []);
    == { SplitPlain(sep, r, tail, []); assert [] + r == r; }
      [cur] + Split(sep, tail, r);
    == { SplitRepliesRest(sep, replies, k); }
      [cur] + ReplyPieces(replies);
    }
  }

  /** After the first reply: the line feed joins it, then the remaining replies split alike. */
  lemma {:induction false} SplitRepliesRest(sep: Separator, replies: seq<string>, k: nat)
    requires sep != BlankLine && |replies| >= 1
    requires forall i :: 0 <= i < |replies| ==> PlainPart(replies[i])
    ensures var tail := if |replies| == 1 then "" else "\n" + ReplyText(replies[1..], k + 1);
      Split(sep, tail, replies[0]) == ReplyPieces(replies)
    decreases |replies|, 0
  {
    var r := replies[0];
    if |replies| > 1 {
      var rest := replies[1..];
      SplitPlain(sep, "\n", ReplyText(rest, k + 1), r);
      assert forall i :: 0 <= i < |rest| ==> PlainPart(rest[i]) by {
        forall i | 0 <= i < |rest| ensures PlainPart(rest[i]) {
          assert rest[i] == replies[i + 1];
        }
      }
      SplitReplies(sep, rest, k + 1, r + "\n");
    }
  }

  /** Trimming a plain part followed by a line feed gives the part back. */
  lemma TrimLine(p: string)
    requires Trimmed(p)
    ensures Trim(p + "\n") == p && Trim(p) == p
  {
    TrimStartFixed(p + "\n");
    TrimStartFixed(p);
    TrimEndFixed(p);
    var s := p + "\n";
    assert IsSpace(s[|s| - 1]);
    assert s[..|s| - 1] == p;
  }

  lemma {:induction false} ReplyPiecesKept(replies: seq<string>)
    requires forall i :: 0 <= i < |replies| ==> PlainPart(replies[i])
    ensures NonBlank(ReplyPieces(replies)) == replies
    decreases |replies|
  {
    if |replies| == 1 {
      TrimLine(replies[0]);
      assert NonBlank(replies) == [replies[0]] + NonBlank(replies[1..]);
    } else if |replies| > 1 {
      TrimLine(replies[0]);
      forall i | 0 <= i < |replies[1..]| ensures PlainPart(replies[1..][i]) {
        assert replies[1..][i] == replies[i + 1];
      }
      ReplyPiecesKept(replies[1..]);
      var pieces := ReplyPieces(replies);
      assert pieces[1..] == ReplyPieces(replies[1..]);
      assert replies == [replies[0]] + replies[1..];
    }
  }

  lemma ContainsPrefix(s: string, p: string)
    requires StartsWith(s, p)
    ensures Contains(s, p)
  {
    assert s[0..] == s;
  }

  /**
   * A thread the generator logs splits back into its parent and replies
   * (at most five parts are kept).
   */
  lemma ThreadTextRoundTrip(parent: string, replies: seq<string>)
    requires PlainPart(parent) && |replies| >= 1
    requires forall i :: 0 <= i < |replies| ==> PlainPart(replies[i])
    ensures ParseThreadParts(ThreadText(parent, replies)) == Take([parent] + replies, MaxParts)
  {
    var text := ThreadText(parent, replies);
    var body := parent + "\n";
    assert text == "【親】" + (body + ReplyText(replies, 1));
    assert StartsWith(text, "【親】") && !StartsWith(text, "【親投稿】") by {
      assert text[..3] == "【親】";
      assert text[2] == '】';
      if |text| >= 5 {
        assert text[..5][2] == '】';
      }
    }
    SplitAt(Markers, "【親】", body + ReplyText(replies, 1), []);
    SplitPlain(Markers, body, ReplyText(replies, 1), []);
    assert [] + body == body;
    SplitReplies(Markers, replies, 1, body);
    var pieces := Split(Markers, text, []);
    assert pieces == [""] + ([body] + ReplyPieces(replies));
    TrimLine(parent);
    ReplyPiecesKept(replies);
    assert NonBlank(pieces) == NonBlank([body] + ReplyPieces(replies)) by {
      assert pieces[1..] == [body] + ReplyPieces(replies);
    }
    assert NonBlank([body] + ReplyPieces(replies)) == [parent] + replies by {
      assert ([body] + ReplyPieces(replies))[1..] == ReplyPieces(replies);
    }
    ContainsPrefix(text, "【親】");
  }

  /** The pattern as written matches nothing at 【親】. */
  lemma NoMatchAtParentMarker(rest: string)
    ensures MatchLen(MarkersAsWritten, "【親】" + rest) == 0
  {
    var s := "【親】" + rest;
    assert s[..3] == "【親】";
    assert s[1] == '親' && s[2] == '】';
    assert !StartsWith(s, "【返信") by { assert s[..3][1] == '親'; }
    if |s| >= 4 {
      assert !StartsWith(s, "【親投】") by { assert s[..4][2] == '】'; }
    }
    if |s| >= 5 {
      assert !StartsWith(s, "【親投稿】") by { assert s[..5][2] == '】'; }
    }
  }

  /** Where no separator match starts, the scan only collects characters. */
  lemma {:induction false} SplitSkip(sep: Separator, s: string, k: nat, cur: string)
    requires k <= |s|
    requires forall i :: 0 <= i < k ==> MatchLen(sep, s[i..]) == 0
    ensures Split(sep, s, cur) == Split(sep, s[k..], cur + s[..k])
    decreases k
  {
    if k == 0 {
      assert s[0..] == s && cur + s[..0] == cur;
    } else {
      var t := s[1..];
      assert Split(sep, s, cur) == Split(sep, t, cur + [s[0]]) by {
        assert s[0..] == s;
        SplitStep(sep, s, cur);
      }
      assert forall i :: 0 <= i < k - 1 ==> MatchLen(sep, t[i..]) == 0 by {
        forall i | 0 <= i < k - 1 ensures MatchLen(sep, t[i..]) == 0 {
          assert t[i..] == s[i + 1..];
        }
      }
      SplitSkip(sep, t, k - 1, cur + [s[0]]);
      assert t[k - 1..] == s[k..];
      assert cur + [s[0]] + t[..k - 1] == cur + s[..k] by {
        SliceAfterHead(s, k, cur);
      }
    }
  }

  lemma SliceAfterHead(s: string, k: nat, cur: string)
    requires 0 < k <= |s|
    ensures cur + [s[0]] + s[1..][..k - 1] == cur + s[..k]
  {
    assert s[..k] == [s[0]] + s[1..][..k - 1];
  }

  /** One step of the scan where no match starts. */
  lemma SplitStep(sep: Separator, s: string, cur: string)
    requires s != [] && MatchLen(sep, s) == 0
    ensures Split(sep, s, cur) == Split(sep, s[1..], cur + [s[0]])
  {
  }

  lemma ParentPieceUnmatched(parent: string, rest: string)
    requires PlainPart(parent)
    ensures forall i :: 0 <= i < |"【親】" + parent + "\n"| ==>
      MatchLen(MarkersAsWritten, ("【親】" + parent + "\n" + rest)[i..]) == 0
  {
    var body := "【親】" + parent + "\n";
    var text := body + rest;
    forall i | 0 <= i < |body| ensures MatchLen(MarkersAsWritten, text[i..]) == 0 {
      if i == 0 {
        assert text[0..] == "【親】" + (parent + "\n" + rest);
        NoMatchAtParentMarker(parent + "\n" + rest);
      } else {
        assert text[i..][0] == body[i];
        if 3 <= i < 3 + |parent| {
          assert body[i] == parent[i - 3];
        }
      }
    }
  }

  /** As written, the split at 【親】 finds no separator, so the parent piece keeps the marker. */
  lemma AsWrittenPieces(parent: string, replies: seq<string>)
    requires PlainPart(parent) && |replies| >= 1
    requires forall i :: 0 <= i < |replies| ==> PlainPart(replies[i])
    ensures Split(MarkersAsWritten, ThreadText(parent, replies), []) == ["【親】" + parent + "\n"] + ReplyPieces(replies)
  {
    var replyText := ReplyText(replies, 1);
    var body := "【親】" + parent + "\n";
    var text := ThreadText(parent, replies);
    assert text == body + replyText;
    var n := |body|;
    ParentPieceUnmatched(parent, replyText);
    SplitSkip(MarkersAsWritten, text, n, []);
    assert text[..n] == body && text[n..] == replyText;
    assert [] + body == body;
    SplitReplies(MarkersAsWritten, replies, 1, body);
  }

  /**
   * As written, the parent keeps its 【親】 marker: the marker pattern
   * `親投稿?` only matches 【親投】 and 【親投稿】.
   */
  lemma ParentMarkerKeptAsWritten(parent: string, replies: seq<string>)
    requires PlainPart(parent) && |replies| >= 1
    requires forall i :: 0 <= i < |replies| ==> PlainPart(replies[i])
    ensures ParseThreadPartsAsWritten(ThreadText(parent, replies)) == Take(["【親】" + parent] + replies, MaxParts)
  {
    var text := ThreadText(parent, replies);
    AsWrittenPieces(parent, replies);
    var pieces := Split(MarkersAsWritten, text, []);
    var marked := "【親】" + parent;
    assert pieces == [marked + "\n"] + ReplyPieces(replies);
    assert marked[0] == '【' && marked[|marked| - 1] == parent[|parent| - 1];
    TrimLine(marked);
    ReplyPiecesKept(replies);
    assert pieces[1..] == ReplyPieces(replies);
    assert NonBlank(pieces) == [marked] + replies;
    assert text[..3] == "【親】";
    ContainsPrefix(text, "【親】");
  }

  // ------------------------------------------------------------ paragraphs

  /** Blocks joined with blank lines: `blocks.join('\n\n')`. */
  function Paragraphs(blocks: seq<string>): string
    decreases |blocks|
  {
    if |blocks| == 0 then ""
    else if |blocks| == 1 then blocks[0]
    else blocks[0] + "\n\n" + Paragraphs(blocks[1..])
  }

  lemma {:induction false} ParagraphsUnmarked(blocks: seq<string>)
    requires forall i :: 0 <= i < |blocks| ==> PlainPart(blocks[i])
    ensures forall i :: 0 <= i < |Paragraphs(blocks)| ==> Paragraphs(blocks)[i] != '【'
    decreases |blocks|
  {
    if |blocks| > 1 {
      var rest := blocks[1..];
      forall i | 0 <= i < |rest| ensures PlainPart(rest[i]) {
        assert rest[i] == blocks[i + 1];
      }
      ParagraphsUnmarked(rest);
      var b := blocks[0];
      var p := Paragraphs(blocks);
      assert p == b + "\n\n" + Paragraphs(rest);
      forall i | 0 <= i < |p| ensures p[i] != '【' {
        if i >= |b| + 2 {
          assert p[i] == Paragraphs(rest)[i - |b| - 2];
        }
      }
    }
  }

  /** `"\n\n" + x` with `x` not starting with a line feed: the blank line is matched whole. */
  lemma BlankLineMatched(x: string)
    requires x == [] || x[0] != '\n'
    ensures MatchLen(BlankLine, "\n\n" + x) == 2
  {
    var s := "\n\n" + x;
    var n := NewlineRun(s);
    assert s[0] == '\n' && s[1] == '\n';
    assert n >= 2;
    if |s| > 2 {
      assert s[2] == x[0];
    }
  }

  lemma {:induction false} SplitParagraphs(blocks: seq<string>, cur: string)
    requires |blocks| >= 1
    requires forall i :: 0 <= i < |blocks| ==> PlainPart(blocks[i])
    ensures Split(BlankLine, Paragraphs(blocks), cur) == [cur + blocks[0]] + blocks[1..]
    decreases |blocks|
  {
    var b := blocks[0];
    if |blocks| == 1 {
      SplitPlain(BlankLine, b, [], cur);
      assert b + [] == b;
    } else {
      var rest := blocks[1..];
      assert forall i :: 0 <= i < |rest| ==> PlainPart(rest[i]) by {
        forall i | 0 <= i < |rest| ensures PlainPart(rest[i]) {
          assert rest[i] == blocks[i + 1];
        }
      }
      var tail := Paragraphs(rest);
      assert Paragraphs(blocks) == b + ("\n\n" + tail);
      calc {
        Split(BlankLine, Paragraphs(blocks), cur);
      == { SplitPlain(BlankLine, b, "\n\n" + tail, cur); }
        Split(BlankLine, "\n\n" + tail, cur + b);
      == { ParagraphsHead(rest); BlankLineMatched(tail); SplitAt(BlankLine, "\n\n", tail, cur + b); }
        [cur + b] + Split(BlankLine, tail, []);
      == { SplitParagraphs(rest, []); assert [] + rest[0] == rest[0]; }
        [cur + b] + ([rest[0]] + rest[1..]);
      == { assert [rest[0]] + rest[1..] == rest; }
        [cur + b] + rest;
      }
    }
  }

  /** The joined paragraphs start with the first one's first character. */
  lemma ParagraphsHead(blocks: seq<string>)
    requires |blocks| >= 1 && blocks[0] != "" && blocks[0][0] != '\n'
    ensures Paragraphs(blocks) != [] && Paragraphs(blocks)[0] != '\n'
  {
    if |blocks| > 1 {
      var rest := "\n\n" + Paragraphs(blocks[1..]);
      assert Paragraphs(blocks) == blocks[0] + rest;
      assert (blocks[0] + rest)[0] == blocks[0][0];
    }
  }


  lemma {:induction false} NonBlankFixed(pieces: seq<string>)
    requires forall i :: 0 <= i < |pieces| ==> Trimmed(pieces[i])
    ensures NonBlank(pieces) == pieces
    decreases |pieces|
  {
    if |pieces| > 0 {
      TrimLine(pieces[0]);
      forall i | 0 <= i < |pieces[1..]| ensures Trimmed(pieces[1..][i]) {
        assert pieces[1..][i] == pieces[i + 1];
      }
      NonBlankFixed(pieces[1..]);
      assert [pieces[0]] + pieces[1..] == pieces;
    }
  }

  /**
   * Text without thread markers whose paragraphs are separated by blank
   * lines splits into those paragraphs (at most five are kept).
   */
  lemma ParagraphsRoundTrip(blocks: seq<string>)
    requires |blocks| >= 2
    requires forall i :: 0 <= i < |blocks| ==> PlainPart(blocks[i])
    ensures ParseThreadParts(Paragraphs(blocks)) == Take(blocks, MaxParts)
  {
    var text := Paragraphs(blocks);
    UnmarkedIsOnePiece(blocks);
    ParagraphsSplitBack(blocks);
    NonBlankFixed(blocks);
    ParseByParagraphs(text, Markers);
  }

  lemma UnmarkedIsOnePiece(blocks: seq<string>)
    requires |blocks| >= 2
    requires forall i :: 0 <= i < |blocks| ==> PlainPart(blocks[i])
    ensures Paragraphs(blocks) != ""
    ensures |NonBlank(Split(Markers, Paragraphs(blocks), []))| <= 1
  {
    var text := Paragraphs(blocks);
    assert text == blocks[0] + ("\n\n" + Paragraphs(blocks[1..]));
    ParagraphsUnmarked(blocks);
    SplitPlain(Markers, text, [], []);
    assert text + [] == text && [] + text == text;
  }

  lemma ParagraphsSplitBack(blocks: seq<string>)
    requires |blocks| >= 1
    requires forall i :: 0 <= i < |blocks| ==> PlainPart(blocks[i])
    ensures Split(BlankLine, Paragraphs(blocks), []) == blocks
  {
    SplitParagraphs(blocks, []);
    assert [] + blocks[0] == blocks[0];
    assert [blocks[0]] + blocks[1..] == blocks;
  }

  /** Without two marked parts, the text is split at blank lines when that gives two parts or more. */
  lemma ParseByParagraphs(text: string, markers: Separator)
    requires text != ""
    requires |NonBlank(Split(markers, text, []))| <= 1
    requires |Split(BlankLine, text, [])| >= 2 && |NonBlank(Split(BlankLine, text, []))| >= 2
    ensures ParseWith(text, markers) == Take(NonBlank(Split(BlankLine, text, [])), MaxParts)
  {
  }

  /** The smallest generated thread shows it: the parent part still reads 【親】A. */
  lemma ParentMarkerKeptExample()
    ensures ParseThreadPartsAsWritten("【親】A\n【返信1】B") == ["【親】A", "B"]
    ensures ParseThreadParts("【親】A\n【返信1】B") == ["A", "B"]
  {
    assert PlainPart("A") && PlainPart("B");
    assert NatToString(1) == "1";
    assert ThreadText("A", ["B"]) == "【親】A\n【返信1】B";
    ParentMarkerKeptAsWritten("A", ["B"]);
    assert "【親】" + "A" == "【親】A";
    assert Take(["【親】A"] + ["B"], MaxParts) == ["【親】A", "B"];
    ThreadTextRoundTrip("A", ["B"]);
  }

  // ------------------------------------------------------------ saving

  const ThreadIdHeader := "thread_id"
  const ThreadOrderHeader := "thread_order"

  /** The header row after `saveDraft`'s check: the thread columns are appended only when `thread_id` is missing. */
  function WithThreadColumns(h: seq<string>): (r: seq<string>)
    ensures ThreadIdHeader in r
    ensures |h| <= |r| && r[..|h|] == h
    ensures r == h <==> ThreadIdHeader in h
  {
    if ThreadIdHeader in h then h else h + [ThreadIdHeader, ThreadOrderHeader]
  }

  /** The request fields `saveDraft` reads: `text`, `type` and `source` ('' when absent). */
  datatype DraftParams = DraftParams(text: string, kind: string, source: string)

  /** What `saveDraft` returns. */
  datatype Saved = ThreadSaved(threadId: string, count: nat) | DraftSaved(draftId: string)

  /** `params.type === 'thread' && params.text`. */
  predicate IsThread(params: DraftParams)
  {
    params.kind == "thread" && params.text != ""
  }

  function ThreadId(nowMs: int): string
  {
    "thread-" + IntToString(nowMs)
  }

  function PartId(nowMs: int, i: nat): string
  {
    "draft-" + IntToString(nowMs) + "-" + NatToString(i)
  }

  function SingleId(nowMs: int): string
  {
    "draft-" + IntToString(nowMs)
  }

  /** The row of part `i` of a thread saved at `nowMs`. */
  function PartRow(parts: seq<string>, i: nat, accountId: string, source: string, nowMs: int): DraftRow
    requires i < |parts|
  {
    DraftRow(PartId(nowMs, i), accountId, parts[i], if i == 0 then "thread_parent" else "thread_reply",
             nowMs, "unused", source, ThreadId(nowMs), i)
  }

  /**
   * The rows of a saved thread: one per part, in order; the first is the
   * parent, the others replies; all unused and sharing one thread id, with
   * the part's index as thread order.
   */
  function ThreadRows(parts: seq<string>, accountId: string, source: string, nowMs: int): (r: seq<DraftRow>)
    ensures |r| == |parts|
    ensures forall i :: 0 <= i < |r| ==>
      && r[i].text == parts[i] && r[i].threadOrder == i && r[i].threadId == ThreadId(nowMs)
      && r[i].status == "unused" && r[i].accountId == accountId && r[i].source == source
      && r[i].draftId == PartId(nowMs, i)
      && r[i].kind == (if i == 0 then "thread_parent" else "thread_reply")
  {
    seq(|parts|, i requires 0 <= i < |parts| => PartRow(parts, i, accountId, source, nowMs))
  }

  /** The row of a single draft: the type defaults to 'single', the thread cells are blank. */
  function SingleRow(params: DraftParams, accountId: string, nowMs: int): DraftRow
  {
    DraftRow(SingleId(nowMs), accountId, params.text, OrDefault(params.kind, "single"), nowMs, "unused",
             OrDefault(params.source, "manual"), "", 0)
  }

  /** The rows `saveDraft` appends. */
  function SavedRows(params: DraftParams, accountId: string, nowMs: int): seq<DraftRow>
  {
    if IsThread(params) then ThreadRows(ParseThreadParts(params.text), accountId, OrDefault(params.source, "manual"), nowMs)
    else [SingleRow(params, accountId, nowMs)]
  }

  function SavedOf(params: DraftParams, nowMs: int): Saved
  {
    if IsThread(params) then ThreadSaved(ThreadId(nowMs), |ParseThreadParts(params.text)|)
    else DraftSaved(SingleId(nowMs))
  }

  /** The rows of a thread, one per part, built in order (the `forEach` of `saveDraft`). */
  method BuildThreadRows(parts: seq<string>, accountId: string, source: string, nowMs: int)
    returns (rows: seq<DraftRow>)
    ensures rows == ThreadRows(parts, accountId, source, nowMs)
  {
    ghost var all := ThreadRows(parts, accountId, source, nowMs);
    rows := [];
    var i := 0;
    while i < |parts|
      invariant 0 <= i <= |parts|
      invariant rows == all[..i]
    {
      rows := rows + [PartRow(parts, i, accountId, source, nowMs)];
      i := i + 1;
    }
    assert all[..|parts|] == all;
  }

  /**
   * `saveDraft`: the thread columns are added to the header if missing, then
   * a thread is stored as one row per part and anything else as one row.
   * `account` is what `getActiveAccount` returned; one clock reading stands
   * for both `new Date()` and `Date.now()`.
   */
  method SaveDraft(sheet: Sheet<DraftRow>, account: Option<Accounts.Account>, params: DraftParams, nowMs: int)
    returns (r: Result<Saved>)
    modifies sheet
    ensures !old(sheet.present) ==>
      r == Err(DraftSheetMissingMessage) && !sheet.present
      && sheet.headers == old(sheet.headers) && sheet.rows == old(sheet.rows)
    ensures old(sheet.present) ==>
      && r == Ok(SavedOf(params, nowMs))
      && sheet.present
      && sheet.headers == WithThreadColumns(old(sheet.headers))
      && sheet.rows == old(sheet.rows) + SavedRows(params, Accounts.ActiveAccountId(account), nowMs)
  {
    if !sheet.present {
      return Err(DraftSheetMissingMessage);
    }
    if ThreadIdHeader !in sheet.headers {
      sheet.SetHeaders(sheet.headers + [ThreadIdHeader, ThreadOrderHeader]);
    }
    var accountId := Accounts.ActiveAccountId(account);
    var source := OrDefault(params.source, "manual");
    if IsThread(params) {
      var parts := ParseThreadParts(params.text);
      var rows := BuildThreadRows(parts, accountId, source, nowMs);
      if |rows| > 0 {
        sheet.AppendRows(rows);
      }
      return Ok(ThreadSaved(ThreadId(nowMs), |rows|));
    }
    sheet.AppendRows([SingleRow(params, accountId, nowMs)]);
    return Ok(DraftSaved(SingleId(nowMs)));
  }

  // ------------------------------------------------------------ listing

  /** A draft as `getDrafts` reads it: the thread cells count only when their header is present. */
  function ReadDraft(headers: seq<string>, row: DraftRow): DraftRow
  {
    row.(threadId := if ThreadIdHeader in headers then row.threadId else "",
         threadOrder := if ThreadOrderHeader in headers then row.threadOrder else 0)
  }

  /** A row `getDrafts` lists: it has an id, belongs to the account and has the requested status ('' for any). */
  predicate Wanted(row: DraftRow, accountId: string, statusFilter: string)
  {
    row.draftId != "" && row.accountId == accountId && (statusFilter == "" || row.status == statusFilter)
  }

  function WantedBy(accountId: string, statusFilter: string): DraftRow -> bool
  {
    (row: DraftRow) => Wanted(row, accountId, statusFilter)
  }

  function ReadAll(headers: seq<string>, rows: seq<DraftRow>): (r: seq<DraftRow>)
    ensures |r| == |rows|
    ensures forall i :: 0 <= i < |rows| ==> r[i] == ReadDraft(headers, rows[i])
  {
    seq(|rows|, i requires 0 <= i < |rows| => ReadDraft(headers, rows[i]))
  }

  /** The drafts `getDrafts` keeps, in sheet order: each belongs to the account and has the requested status. */
  function Listed(headers: seq<string>, rows: seq<DraftRow>, accountId: string, statusFilter: string): (r: seq<DraftRow>)
    ensures forall i :: 0 <= i < |r| ==> Wanted(r[i], accountId, statusFilter)
  {
    ReadAll(headers, Filter(rows, WantedBy(accountId, statusFilter)))
  }

  lemma ListedSnoc(headers: seq<string>, rows: seq<DraftRow>, row: DraftRow, accountId: string, statusFilter: string)
    ensures Listed(headers, rows + [row], accountId, statusFilter)
      == Listed(headers, rows, accountId, statusFilter)
         + (if Wanted(row, accountId, statusFilter) then [ReadDraft(headers, row)] else [])
  {
    FilterSnoc(rows, row, WantedBy(accountId, statusFilter));
  }

  /** The entry `threadMap[threadId]`: the thread's date, status and source come from its first row. */
  datatype Group = Group(threadId: string, createdAt: int, status: string, source: string, parts: seq<DraftRow>)

  /** The `singles` list and the `threadMap` entries in the order they were created. */
  datatype Grouped = Grouped(singles: seq<DraftRow>, groups: seq<Group>)

  const Unthreaded: DraftRow -> bool := (d: DraftRow) => d.threadId == ""

  function InThread(id: string): DraftRow -> bool
  {
    (d: DraftRow) => d.threadId == id
  }

  function IsGroup(id: string): Group -> bool
  {
    (g: Group) => g.threadId == id
  }

  /** One step of the `forEach`: a draft without a thread id is a single, any other joins its thread. */
  function AddDraft(g: Grouped, d: DraftRow): Grouped
  {
    if d.threadId == "" then Grouped(g.singles + [d], g.groups)
    else match FirstWhere(g.groups, IsGroup(d.threadId))
      case Some(k) => Grouped(g.singles, g.groups[k := g.groups[k].(parts := g.groups[k].parts + [d])])
      case None => Grouped(g.singles, g.groups + [Group(d.threadId, d.createdAt, d.status, d.source, [d])])
  }

  function Grouping(ds: seq<DraftRow>): Grouped
  {
    if |ds| == 0 then Grouped([], [])
    else AddDraft(Grouping(ds[..|ds| - 1]), ds[|ds| - 1])
  }

  /** A thread group holds exactly the drafts with its id, in order, and takes its fields from the first. */
  predicate GroupOf(ds: seq<DraftRow>, grp: Group)
  {
    && grp.threadId != ""
    && grp.parts == Filter(ds, InThread(grp.threadId))
    && grp.parts != []
    && grp.createdAt == grp.parts[0].createdAt && grp.status == grp.parts[0].status && grp.source == grp.parts[0].source
  }

  /** Singles are the drafts without a thread; one group per thread id, each holding that thread's drafts. */
  predicate GroupedFrom(ds: seq<DraftRow>, g: Grouped)
  {
    && g.singles == Filter(ds, Unthreaded)
    && (forall k :: 0 <= k < |g.groups| ==> GroupOf(ds, g.groups[k]))
    && DistinctThreads(g.groups)
    && Covered(ds, g.groups)
  }

  /** No two groups share a thread id. */
  predicate DistinctThreads(groups: seq<Group>)
  {
    forall k, l :: 0 <= k < l < |groups| ==> groups[k].threadId != groups[l].threadId
  }

  lemma DistinctSnoc(groups: seq<Group>, grp: Group)
    requires DistinctThreads(groups)
    requires forall k :: 0 <= k < |groups| ==> groups[k].threadId != grp.threadId
    ensures DistinctThreads(groups + [grp])
  {
  }

  /** With no group for `d`'s thread, no earlier draft is in that thread. */
  lemma NoDraftOfNewThread(ds: seq<DraftRow>, groups: seq<Group>, d: DraftRow)
    requires Covered(ds, groups) && d.threadId != ""
    requires forall k :: 0 <= k < |groups| ==> groups[k].threadId != d.threadId
    ensures forall i :: 0 <= i < |ds| ==> ds[i].threadId != d.threadId
  {
    forall i | 0 <= i < |ds| ensures ds[i].threadId != d.threadId {
      if ds[i].threadId != "" {
        var k :| 0 <= k < |groups| && groups[k].threadId == ds[i].threadId;
      }
    }
  }

  /** Every threaded draft has a group with its thread id. */
  predicate Covered(ds: seq<DraftRow>, groups: seq<Group>)
  {
    forall i :: 0 <= i < |ds| && ds[i].threadId != "" ==>
      exists k :: 0 <= k < |groups| && groups[k].threadId == ds[i].threadId
  }

  /** Keeping the groups' thread ids, and having one for `d`, keeps every draft covered. */
  lemma CoveredSnoc(ds: seq<DraftRow>, groups: seq<Group>, d: DraftRow, groups': seq<Group>, k0: nat)
    requires Covered(ds, groups)
    requires |groups| <= |groups'| && forall k :: 0 <= k < |groups| ==> groups'[k].threadId == groups[k].threadId
    requires k0 < |groups'| && groups'[k0].threadId == d.threadId
    ensures Covered(ds + [d], groups')
  {
    var ds' := ds + [d];
    forall i | 0 <= i < |ds'| && ds'[i].threadId != ""
      ensures exists k :: 0 <= k < |groups'| && groups'[k].threadId == ds'[i].threadId
    {
      if i == |ds| {
        assert groups'[k0].threadId == ds'[i].threadId;
      } else {
        assert ds'[i] == ds[i];
        var k :| 0 <= k < |groups| && groups[k].threadId == ds[i].threadId;
        assert groups'[k].threadId == ds'[i].threadId;
      }
    }
  }

  /** A group of another thread is unchanged by a new draft. */
  lemma GroupOfOther(ds: seq<DraftRow>, grp: Group, d: DraftRow)
    requires GroupOf(ds, grp) && grp.threadId != d.threadId
    ensures GroupOf(ds + [d], grp)
  {
    FilterSnoc(ds, d, InThread(grp.threadId));
  }

  /** The group of the new draft's thread takes it as its last part. */
  lemma GroupOfSame(ds: seq<DraftRow>, grp: Group, d: DraftRow)
    requires GroupOf(ds, grp) && grp.threadId == d.threadId
    ensures GroupOf(ds + [d], grp.(parts := grp.parts + [d]))
  {
    FilterSnoc(ds, d, InThread(grp.threadId));
    assert (grp.parts + [d])[0] == grp.parts[0];
  }

  /** A draft of a thread not seen before starts a group of its own. */
  lemma GroupOfNew(ds: seq<DraftRow>, d: DraftRow)
    requires d.threadId != "" && forall i :: 0 <= i < |ds| ==> ds[i].threadId != d.threadId
    ensures GroupOf(ds + [d], Group(d.threadId, d.createdAt, d.status, d.source, [d]))
  {
    FilterNone(ds, InThread(d.threadId));
    FilterSnoc(ds, d, InThread(d.threadId));
  }

  lemma AddSingle(ds: seq<DraftRow>, g: Grouped, d: DraftRow)
    requires GroupedFrom(ds, g) && d.threadId == ""
    ensures GroupedFrom(ds + [d], AddDraft(g, d))
  {
    var ds' := ds + [d];
    FilterSnoc(ds, d, Unthreaded);
    forall k | 0 <= k < |g.groups| ensures GroupOf(ds', g.groups[k]) {
      FilterSnoc(ds, d, InThread(g.groups[k].threadId));
    }
    forall i | 0 <= i < |ds'| && ds'[i].threadId != ""
      ensures exists k :: 0 <= k < |g.groups| && g.groups[k].threadId == ds'[i].threadId
    {
      assert i < |ds| && ds'[i] == ds[i];
    }
  }

  lemma AddToGroup(ds: seq<DraftRow>, g: Grouped, d: DraftRow, k0: nat)
    requires GroupedFrom(ds, g) && d.threadId != ""
    requires FirstWhere(g.groups, IsGroup(d.threadId)) == Some(k0)
    ensures GroupedFrom(ds + [d], AddDraft(g, d))
  {
    var ds' := ds + [d];
    var grp := g.groups[k0];
    var groups' := g.groups[k0 := grp.(parts := grp.parts + [d])];
    assert AddDraft(g, d) == Grouped(g.singles, groups');
    FilterSnoc(ds, d, Unthreaded);
    forall k | 0 <= k < |groups'| ensures GroupOf(ds', groups'[k]) {
      if k == k0 {
        GroupOfSame(ds, grp, d);
      } else {
        GroupOfOther(ds, g.groups[k], d);
      }
    }
    CoveredSnoc(ds, g.groups, d, groups', k0);
  }

  /** Every group stays a group of the longer list, and the new draft's group is one. */
  lemma NewGroupsOf(ds: seq<DraftRow>, groups: seq<Group>, d: DraftRow)
    requires Covered(ds, groups) && d.threadId != ""
    requires forall k :: 0 <= k < |groups| ==> GroupOf(ds, groups[k])
    requires forall k :: 0 <= k < |groups| ==> groups[k].threadId != d.threadId
    ensures var groups' := groups + [Group(d.threadId, d.createdAt, d.status, d.source, [d])];
      forall k :: 0 <= k < |groups'| ==> GroupOf(ds + [d], groups'[k])
  {
    var grp := Group(d.threadId, d.createdAt, d.status, d.source, [d]);
    var groups' := groups + [grp];
    assert GroupOf(ds + [d], grp) by {
      NoDraftOfNewThread(ds, groups, d);
      GroupOfNew(ds, d);
    }
    forall k | 0 <= k < |groups'| ensures GroupOf(ds + [d], groups'[k]) {
      if k < |groups| {
        GroupOfOther(ds, groups[k], d);
      } else {
        assert groups'[k] == grp;
      }
    }
  }

  lemma AddNewGroup(ds: seq<DraftRow>, g: Grouped, d: DraftRow)
    requires GroupedFrom(ds, g) && d.threadId != ""
    requires FirstWhere(g.groups, IsGroup(d.threadId)).None?
    ensures GroupedFrom(ds + [d], AddDraft(g, d))
  {
    var ds' := ds + [d];
    var grp := Group(d.threadId, d.createdAt, d.status, d.source, [d]);
    var groups' := g.groups + [grp];
    assert AddDraft(g, d) == Grouped(g.singles, groups');
    assert g.singles == Filter(ds', Unthreaded) by {
      FilterSnoc(ds, d, Unthreaded);
      assert Filter(ds, Unthreaded) + [] == Filter(ds, Unthreaded);
    }
    assert forall k :: 0 <= k < |g.groups| ==> g.groups[k].threadId != d.threadId;
    NewGroupsOf(ds, g.groups, d);
    DistinctSnoc(g.groups, grp);
    CoveredSnoc(ds, g.groups, d, groups', |g.groups|);
  }

  lemma AddDraftGroups(ds: seq<DraftRow>, g: Grouped, d: DraftRow)
    requires GroupedFrom(ds, g)
    ensures GroupedFrom(ds + [d], AddDraft(g, d))
  {
    if d.threadId == "" {
      AddSingle(ds, g, d);
    } else {
      match FirstWhere(g.groups, IsGroup(d.threadId))
      case Some(k) => AddToGroup(ds, g, d, k);
      case None => AddNewGroup(ds, g, d);
    }
  }

  /** The grouping loses no draft, invents none, and gives every thread exactly one group. */
  lemma {:induction false} GroupingSpec(ds: seq<DraftRow>)
    ensures GroupedFrom(ds, Grouping(ds))
    decreases |ds|
  {
    if |ds| > 0 {
      var init := ds[..|ds| - 1];
      var last := ds[|ds| - 1];
      assert ds == init + [last];
      assert Grouping(ds) == AddDraft(Grouping(init), last);
      GroupingSpec(init);
      AddDraftGroups(init, Grouping(init), last);
    }
  }

  /** An entry of the list `getDrafts` returns. */
  datatype Item =
    | Single(draft: DraftRow)
    | Thread(threadId: string, parts: seq<DraftRow>, createdAt: int, status: string, source: string)

  function ItemTime(it: Item): int
  {
    if it.Single? then it.draft.createdAt else it.createdAt
  }

  const PartOrder: DraftRow -> int := (d: DraftRow) => d.threadOrder

  /** A thread entry: its parts in ascending thread order. */
  function ThreadItem(grp: Group): Item
  {
    Thread(grp.threadId, SortAsc(grp.parts, PartOrder), grp.createdAt, grp.status, grp.source)
  }

  function SingleItems(ds: seq<DraftRow>): (r: seq<Item>)
    ensures |r| == |ds|
    ensures forall i :: 0 <= i < |ds| ==> r[i] == Single(ds[i])
  {
    seq(|ds|, i requires 0 <= i < |ds| => Single(ds[i]))
  }

  function ThreadItems(groups: seq<Group>): (r: seq<Item>)
    ensures |r| == |groups|
    ensures forall i :: 0 <= i < |groups| ==> r[i] == ThreadItem(groups[i])
  {
    seq(|groups|, i requires 0 <= i < |groups| => ThreadItem(groups[i]))
  }

  /** `getDrafts`: the singles, then one entry per thread, all sorted newest first. */
  function DraftsOf(present: bool, headers: seq<string>, rows: seq<DraftRow>, accountId: string, statusFilter: string)
    : (r: seq<Item>)
    ensures SortedDesc(r, ItemTime)
    ensures !present ==> r == []
  {
    if !present then []
    else
      var g := Grouping(Listed(headers, rows, accountId, statusFilter));
      SortDesc(SingleItems(g.singles) + ThreadItems(g.groups), ItemTime)
  }

  /**
   * What an entry of the listing looks like: a single is an unthreaded draft
   * of the account with the requested status; a thread entry holds at least
   * one part, all with its thread id, of the account and with the requested
   * status, in ascending thread order.
   */
  predicate ItemShape(it: Item, accountId: string, statusFilter: string)
  {
    match it
    case Single(d) => d.threadId == "" && Wanted(d, accountId, statusFilter)
    case Thread(threadId, parts, _, _, _) =>
      && threadId != "" && parts != []
      && SortedAsc(parts, PartOrder)
      && forall p :: p in parts ==> p.threadId == threadId && Wanted(p, accountId, statusFilter)
  }

  /** Every entry `getDrafts` returns has the shape above. */
  lemma DraftsShape(headers: seq<string>, rows: seq<DraftRow>, accountId: string, statusFilter: string, it: Item)
    requires it in DraftsOf(true, headers, rows, accountId, statusFilter)
    ensures ItemShape(it, accountId, statusFilter)
  {
    var ds := Listed(headers, rows, accountId, statusFilter);
    var g := Grouping(ds);
    assert it in Entries(g) by {
      assert it in multiset(Entries(g));
    }
    GroupingSpec(ds);
    EntryShape(ds, g, it, accountId, statusFilter);
  }

  /** The same, for the entries before sorting. */
  lemma EntryShape(ds: seq<DraftRow>, g: Grouped, it: Item, accountId: string, statusFilter: string)
    requires g.singles == Filter(ds, Unthreaded)
    requires forall k :: 0 <= k < |g.groups| ==> GroupOf(ds, g.groups[k])
    requires it in Entries(g)
    requires forall i :: 0 <= i < |ds| ==> Wanted(ds[i], accountId, statusFilter)
    ensures ItemShape(it, accountId, statusFilter)
  {
    var singles := SingleItems(g.singles);
    var threads := ThreadItems(g.groups);
    if it in singles {
      var i :| 0 <= i < |singles| && singles[i] == it;
      SingleEntryShape(ds, g.singles[i], accountId, statusFilter);
    } else {
      assert it in threads;
      var i :| 0 <= i < |threads| && threads[i] == it;
      GroupEntryShape(ds, g.groups[i], accountId, statusFilter);
    }
  }

  /** A single entry is an unthreaded listed draft. */
  lemma SingleEntryShape(ds: seq<DraftRow>, d: DraftRow, accountId: string, statusFilter: string)
    requires d in Filter(ds, Unthreaded)
    requires forall i :: 0 <= i < |ds| ==> Wanted(ds[i], accountId, statusFilter)
    ensures ItemShape(Single(d), accountId, statusFilter)
  {
    FilterMember(ds, Unthreaded, d);
  }

  /** A thread entry holds its group's drafts in thread order, all with its thread id and all listed. */
  lemma GroupEntryShape(ds: seq<DraftRow>, grp: Group, accountId: string, statusFilter: string)
    requires GroupOf(ds, grp)
    requires forall i :: 0 <= i < |ds| ==> Wanted(ds[i], accountId, statusFilter)
    ensures ItemShape(ThreadItem(grp), accountId, statusFilter)
  {
    var it := ThreadItem(grp);
    assert it.parts != [] by {
      assert grp.parts[0] in multiset(grp.parts);
    }
    forall p | p in it.parts ensures p.threadId == it.threadId && Wanted(p, accountId, statusFilter) {
      assert p in multiset(grp.parts);
      FilterMember(ds, InThread(grp.threadId), p);
    }
  }

  /** The entries before sorting. */
  function Entries(g: Grouped): seq<Item>
  {
    SingleItems(g.singles) + ThreadItems(g.groups)
  }

  lemma ListedContains(headers: seq<string>, rows: seq<DraftRow>, accountId: string, statusFilter: string, row: DraftRow)
    returns (m: nat)
    requires row in rows && Wanted(row, accountId, statusFilter)
    ensures m < |Listed(headers, rows, accountId, statusFilter)|
    ensures Listed(headers, rows, accountId, statusFilter)[m] == ReadDraft(headers, row)
  {
    var kept := Filter(rows, WantedBy(accountId, statusFilter));
    var j :| 0 <= j < |rows| && rows[j] == row;
    FilterContains(rows, WantedBy(accountId, statusFilter), j);
    m :| 0 <= m < |kept| && kept[m] == row;
  }

  lemma SingleEntered(ds: seq<DraftRow>, m: nat)
    requires m < |ds| && ds[m].threadId == ""
    ensures Single(ds[m]) in Entries(Grouping(ds))
  {
    var g := Grouping(ds);
    GroupingSpec(ds);
    FilterContains(ds, Unthreaded, m);
    var s :| 0 <= s < |g.singles| && g.singles[s] == ds[m];
    assert Entries(g)[s] == Single(ds[m]);
  }

  lemma ThreadEntered(ds: seq<DraftRow>, m: nat) returns (it: Item)
    requires m < |ds| && ds[m].threadId != ""
    ensures it in Entries(Grouping(ds)) && it.Thread? && it.threadId == ds[m].threadId && ds[m] in it.parts
  {
    var g := Grouping(ds);
    assert (exists k :: 0 <= k < |g.groups| && g.groups[k].threadId == ds[m].threadId)
        && (forall k :: 0 <= k < |g.groups| ==> GroupOf(ds, g.groups[k])) by {
      GroupingSpec(ds);
    }
    var k :| 0 <= k < |g.groups| && g.groups[k].threadId == ds[m].threadId;
    var grp := g.groups[k];
    assert grp.parts == Filter(ds, InThread(grp.threadId));
    FilterContains(ds, InThread(grp.threadId), m);
    it := ThreadItem(grp);
    assert ds[m] in multiset(grp.parts);
    assert multiset(it.parts) == multiset(grp.parts);
    assert ds[m] in multiset(it.parts);
    assert Entries(g)[|g.singles| + k] == it;
  }

  /**
   * Conversely every row that is wanted is listed: as a single entry when it
   * has no thread id, otherwise inside the entry of its thread.
   */
  lemma DraftListed(headers: seq<string>, rows: seq<DraftRow>, accountId: string, statusFilter: string, row: DraftRow)
    requires row in rows && Wanted(row, accountId, statusFilter)
    ensures var d := ReadDraft(headers, row);
            var items := DraftsOf(true, headers, rows, accountId, statusFilter);
      && (d.threadId == "" ==> Single(d) in items)
      && (d.threadId != "" ==> exists it :: it in items && it.Thread? && it.threadId == d.threadId && d in it.parts)
  {
    var ds := Listed(headers, rows, accountId, statusFilter);
    var m := ListedContains(headers, rows, accountId, statusFilter, row);
    var unsorted := Entries(Grouping(ds));
    var items := DraftsOf(true, headers, rows, accountId, statusFilter);
    assert items == SortDesc(unsorted, ItemTime);
    assert multiset(items) == multiset(unsorted);
    if ds[m].threadId == "" {
      SingleEntered(ds, m);
      assert Single(ds[m]) in multiset(unsorted);
    } else {
      var it := ThreadEntered(ds, m);
      assert it in multiset(unsorted);
      assert it in items;
    }
  }

  /** One pass of the `forEach` body for a kept draft: `threadMap` is searched by thread id. */
  method AddDraftTo(g: Grouped, d: DraftRow) returns (g': Grouped)
    ensures g' == AddDraft(g, d)
  {
    if d.threadId == "" {
      return Grouped(g.singles + [d], g.groups);
    }
    var k := FindFirst(g.groups, IsGroup(d.threadId));
    if k.Some? {
      var grp := g.groups[k.value];
      return Grouped(g.singles, g.groups[k.value := grp.(parts := grp.parts + [d])]);
    }
    return Grouped(g.singles, g.groups + [Group(d.threadId, d.createdAt, d.status, d.source, [d])]);
  }

  /** The `forEach` over the data rows: rows that are not wanted are skipped. */
  lemma GroupRowsStep(headers: seq<string>, rows: seq<DraftRow>, i: nat, accountId: string, statusFilter: string)
    requires i < |rows|
    ensures Grouping(Listed(headers, rows[..i + 1], accountId, statusFilter))
      == if Wanted(rows[i], accountId, statusFilter)
         then AddDraft(Grouping(Listed(headers, rows[..i], accountId, statusFilter)), ReadDraft(headers, rows[i]))
         else Grouping(Listed(headers, rows[..i], accountId, statusFilter))
  {
    var before := Listed(headers, rows[..i], accountId, statusFilter);
    assert rows[..i + 1] == rows[..i] + [rows[i]];
    ListedSnoc(headers, rows[..i], rows[i], accountId, statusFilter);
    if Wanted(rows[i], accountId, statusFilter) {
      assert (before + [ReadDraft(headers, rows[i])])[..|before|] == before;
    } else {
      assert before + [] == before;
    }
  }

  method GroupRows(headers: seq<string>, rows: seq<DraftRow>, accountId: string, statusFilter: string)
    returns (g: Grouped)
    ensures g == Grouping(Listed(headers, rows, accountId, statusFilter))
  {
    g := Grouped([], []);
    var i := 0;
    while i < |rows|
      invariant 0 <= i <= |rows|
      invariant g == Grouping(Listed(headers, rows[..i], accountId, statusFilter))
    {
      var row := rows[i];
      GroupRowsStep(headers, rows, i, accountId, statusFilter);
      if Wanted(row, accountId, statusFilter) {
        var d := ReadDraft(headers, row);
        g := AddDraftTo(g, d);
      }
      i := i + 1;
    }
    assert rows[..|rows|] == rows;
  }

  /**
   * `getDrafts`: nothing without the sheet; otherwise the rows are read one
   * by one into singles and thread groups, and the entries sorted.
   */
  method GetDrafts(sheet: Sheet<DraftRow>, account: Option<Accounts.Account>, statusFilter: string)
    returns (items: seq<Item>)
    ensures items == DraftsOf(sheet.present, sheet.headers, sheet.rows, Accounts.ActiveAccountId(account), statusFilter)
  {
    if !sheet.present {
      return [];
    }
    var g := GroupRows(sheet.headers, sheet.rows, Accounts.ActiveAccountId(account), statusFilter);
    var results := CollectEntries(g);
    items := SortDesc(results, ItemTime);
  }

  /** The singles, then one entry per thread group, with its parts sorted by thread order. */
  method CollectEntries(g: Grouped) returns (results: seq<Item>)
    ensures results == Entries(g)
  {
    ghost var all := Entries(g);
    var n := |g.singles|;
    results := SingleItems(g.singles);
    assert results == all[..n];
    var j := 0;
    while j < |g.groups|
      invariant 0 <= j <= |g.groups|
      invariant results == all[..n + j]
    {
      assert all[n + j] == ThreadItem(g.groups[j]);
      assert all[..n + j + 1] == all[..n + j] + [all[n + j]];
      results := results + [ThreadItem(g.groups[j])];
      j := j + 1;
    }
    assert all[..n + j] == all;
  }

  // ------------------------------------------------------------ toggling and deleting

  function HasDraftId(draftId: string): DraftRow -> bool
  {
    (row: DraftRow) => row.draftId == draftId
  }

  /** The thread id of the first row with the draft id, when the header has a `thread_id` column; else ''. */
  function TargetThread(headers: seq<string>, rows: seq<DraftRow>, draftId: string): string
  {
    match FirstWhere(rows, HasDraftId(draftId))
    case Some(k) => if ThreadIdHeader in headers then rows[k].threadId else ""
    case None => ""
  }

  /** A row the operation applies to: the draft itself, or a row of its thread. */
  predicate Matches(row: DraftRow, draftId: string, target: string)
  {
    row.draftId == draftId || (target != "" && row.threadId == target)
  }

  function MatchesFn(draftId: string, target: string): DraftRow -> bool
  {
    (row: DraftRow) => Matches(row, draftId, target)
  }

  /** 'unused' becomes 'used', anything else 'unused': the status always changes. */
  function Flip(status: string): (r: string)
    ensures r != status
    ensures r == "used" || r == "unused"
  {
    if status == "unused" then "used" else "unused"
  }

  /** The rows after toggling: matching rows get the other status, nothing else changes. */
  function Toggled(rows: seq<DraftRow>, draftId: string, target: string): (r: seq<DraftRow>)
    ensures |r| == |rows|
    ensures forall i :: 0 <= i < |rows| ==>
      && r[i].(status := rows[i].status) == rows[i]
      && (r[i].status != rows[i].status <==> Matches(rows[i], draftId, target))
  {
    seq(|rows|, i requires 0 <= i < |rows| =>
      if Matches(rows[i], draftId, target) then rows[i].(status := Flip(rows[i].status)) else rows[i])
  }

  /** Toggling the same draft twice restores every status that was 'used' or 'unused'. */
  lemma ToggleTwice(headers: seq<string>, rows: seq<DraftRow>, draftId: string)
    requires forall i :: 0 <= i < |rows| ==> rows[i].status == "used" || rows[i].status == "unused"
    ensures var target := TargetThread(headers, rows, draftId);
            var once := Toggled(rows, draftId, target);
      TargetThread(headers, once, draftId) == target && Toggled(once, draftId, target) == rows
  {
    var target := TargetThread(headers, rows, draftId);
    var once := Toggled(rows, draftId, target);
    var f := FirstWhere(rows, HasDraftId(draftId));
    forall i | 0 <= i < |rows| ensures HasDraftId(draftId)(once[i]) == HasDraftId(draftId)(rows[i]) {
      assert once[i].draftId == rows[i].draftId;
    }
    if f.Some? {
      FirstWhereAt(once, HasDraftId(draftId), f.value);
      assert once[f.value].threadId == rows[f.value].threadId;
    } else {
      assert FirstWhere(once, HasDraftId(draftId)).None?;
    }
    var twice := Toggled(once, draftId, target);
    forall i | 0 <= i < |rows| ensures twice[i] == rows[i] {
      assert once[i].draftId == rows[i].draftId && once[i].threadId == rows[i].threadId;
    }
  }

  /** The first scan of `toggleDraftStatus` and `deleteDraft`: the thread of the draft, if any. */
  method FindTarget(headers: seq<string>, rows: seq<DraftRow>, draftId: string) returns (target: string)
    ensures target == TargetThread(headers, rows, draftId)
  {
    var found := FindFirst(rows, HasDraftId(draftId));
    target := "";
    if found.Some? && ThreadIdHeader in headers {
      target := rows[found.value].threadId;
    }
  }

  /** The second scan of `toggleDraftStatus`: every matching row gets the other status. */
  method FlipMatching(sheet: Sheet<DraftRow>, draftId: string, target: string) returns (toggled: bool)
    modifies sheet
    ensures sheet.present == old(sheet.present) && sheet.headers == old(sheet.headers)
    ensures sheet.rows == Toggled(old(sheet.rows), draftId, target)
    ensures toggled <==> FirstWhere(old(sheet.rows), MatchesFn(draftId, target)).Some?
  {
    ghost var data := sheet.rows;
    ghost var want := Toggled(data, draftId, target);
    toggled := false;
    var i := 0;
    while i < |sheet.rows|
      invariant 0 <= i <= |data| == |sheet.rows|
      invariant sheet.present == old(sheet.present) && sheet.headers == old(sheet.headers)
      invariant forall k :: 0 <= k < |data| ==> sheet.rows[k] == if k < i then want[k] else data[k]
      invariant toggled <==> exists j :: 0 <= j < i && Matches(data[j], draftId, target)
    {
      var row := sheet.rows[i];
      if Matches(row, draftId, target) {
        sheet.SetRow(i, row.(status := Flip(row.status)));
        toggled := true;
      }
      i := i + 1;
    }
    assert sheet.rows == want;
    if toggled {
      ghost var w :| 0 <= w < |data| && Matches(data[w], draftId, target);
      assert MatchesFn(draftId, target)(data[w]);
    }
  }

  /**
   * `toggleDraftStatus`: with a sheet that has data rows, every row of the
   * draft and of its thread flips between 'unused' and 'used' (anything
   * else becomes 'unused'); it fails when no row matched.
   */
  method ToggleDraftStatus(sheet: Sheet<DraftRow>, draftId: string) returns (r: Result<()>)
    modifies sheet
    ensures sheet.present == old(sheet.present) && sheet.headers == old(sheet.headers)
    ensures !old(sheet.present) ==> r == Err(DraftSheetMissingMessage) && sheet.rows == old(sheet.rows)
    ensures old(sheet.present) && old(sheet.rows) == [] ==> r == Err(EmptyRangeMessage) && sheet.rows == []
    ensures old(sheet.present) && old(sheet.rows) != [] ==>
      var target := TargetThread(old(sheet.headers), old(sheet.rows), draftId);
      && sheet.rows == Toggled(old(sheet.rows), draftId, target)
      && (r.Ok? <==> FirstWhere(old(sheet.rows), MatchesFn(draftId, target)).Some?)
      && (r.Err? ==> r == Err(DraftNotFoundMessage))
  {
    if !sheet.present {
      return Err(DraftSheetMissingMessage);
    }
    if |sheet.rows| == 0 {
      return Err(EmptyRangeMessage);
    }
    var target := FindTarget(sheet.headers, sheet.rows, draftId);
    var toggled := FlipMatching(sheet, draftId, target);
    if !toggled {
      return Err(DraftNotFoundMessage);
    }
    return Ok(());
  }

  function Unmatched(draftId: string, target: string): DraftRow -> bool
  {
    (row: DraftRow) => !Matches(row, draftId, target)
  }

  /** The rows after deleting: those that do not match, in their order. */
  function WithoutDraft(headers: seq<string>, rows: seq<DraftRow>, draftId: string): (r: seq<DraftRow>)
    ensures forall i :: 0 <= i < |r| ==> !Matches(r[i], draftId, TargetThread(headers, rows, draftId))
  {
    Filter(rows, Unmatched(draftId, TargetThread(headers, rows, draftId)))
  }

  /** A row survives the delete exactly when it is neither the draft nor a row of its thread. */
  lemma DeleteKeepsOthers(headers: seq<string>, rows: seq<DraftRow>, draftId: string, row: DraftRow)
    ensures row in WithoutDraft(headers, rows, draftId)
      <==> row in rows && !Matches(row, draftId, TargetThread(headers, rows, draftId))
  {
    var keep := Unmatched(draftId, TargetThread(headers, rows, draftId));
    if row in WithoutDraft(headers, rows, draftId) {
      FilterMember(rows, keep, row);
    }
    if row in rows && keep(row) {
      var i :| 0 <= i < |rows| && rows[i] == row;
      FilterContains(rows, keep, i);
    }
  }

  /**
   * `deleteDraft`: with a sheet that has data rows, the draft and every row
   * of its thread are deleted from the bottom up; it fails when nothing was
   * deleted.
   */
  method DeleteDraft(sheet: Sheet<DraftRow>, draftId: string) returns (r: Result<()>)
    modifies sheet
    ensures sheet.present == old(sheet.present) && sheet.headers == old(sheet.headers)
    ensures !old(sheet.present) ==> r == Err(DraftSheetMissingMessage) && sheet.rows == old(sheet.rows)
    ensures old(sheet.present) && old(sheet.rows) == [] ==> r == Err(EmptyRangeMessage) && sheet.rows == []
    ensures old(sheet.present) && old(sheet.rows) != [] ==>
      && sheet.rows == WithoutDraft(old(sheet.headers), old(sheet.rows), draftId)
      && (r.Ok? <==> |sheet.rows| < |old(sheet.rows)|)
      && (r.Err? ==> r == Err(DraftNotFoundMessage))
  {
    if !sheet.present {
      return Err(DraftSheetMissingMessage);
    }
    if |sheet.rows| == 0 {
      return Err(EmptyRangeMessage);
    }
    var target := FindTarget(sheet.headers, sheet.rows, draftId);
    var deleted := DeleteRowsBottomUp(sheet, Unmatched(draftId, target));
    if deleted == 0 {
      return Err(DraftNotFoundMessage);
    }
    return Ok(());
  }

  /** Parts of different index get different draft ids. */
  lemma PartIdsDiffer(nowMs: int, i: nat, j: nat)
    requires i != j
    ensures PartId(nowMs, i) != PartId(nowMs, j)
  {
    var prefix := "draft-" + IntToString(nowMs) + "-";
    if PartId(nowMs, i) == PartId(nowMs, j) {
      assert PartId(nowMs, i)[|prefix|..] == NatToString(i);
      assert PartId(nowMs, j)[|prefix|..] == NatToString(j);
      NatToStringValue(i);
      NatToStringValue(j);
    }
  }

  /**
   * Deleting any part of a thread just saved removes that whole thread and
   * nothing else: the sheet is back to its rows before the save.
   */
  lemma DeleteUndoesSave(headers: seq<string>, rows: seq<DraftRow>, parts: seq<string>, accountId: string,
                         source: string, nowMs: int, j: nat)
    requires j < |parts|
    requires ThreadIdHeader in headers
    requires forall i :: 0 <= i < |rows| ==> rows[i].draftId != PartId(nowMs, j) && rows[i].threadId != ThreadId(nowMs)
    ensures WithoutDraft(headers, rows + ThreadRows(parts, accountId, source, nowMs), PartId(nowMs, j)) == rows
  {
    var added := ThreadRows(parts, accountId, source, nowMs);
    var id := PartId(nowMs, j);
    var target := TargetThread(headers, rows + added, id);
    assert target == ThreadId(nowMs) by {
      SavedPartTarget(headers, rows, parts, accountId, source, nowMs, j);
    }
    var keep := Unmatched(id, target);
    calc {
      Filter(rows + added, keep);
    == { FilterConcat(rows, added, keep); }
      Filter(rows, keep) + Filter(added, keep);
    == { assert forall i :: 0 <= i < |rows| ==> keep(rows[i]); FilterAll(rows, keep); }
      rows + Filter(added, keep);
    == { assert forall i :: 0 <= i < |added| ==> !keep(added[i]); FilterNone(added, keep); }
      rows + [];
    }
    assert rows + [] == rows;
  }

  /** The first row with a just-saved part's id is that part, so the target is the new thread. */
  lemma SavedPartTarget(headers: seq<string>, rows: seq<DraftRow>, parts: seq<string>, accountId: string,
                        source: string, nowMs: int, j: nat)
    requires j < |parts|
    requires ThreadIdHeader in headers
    requires forall i :: 0 <= i < |rows| ==> rows[i].draftId != PartId(nowMs, j)
    ensures TargetThread(headers, rows + ThreadRows(parts, accountId, source, nowMs), PartId(nowMs, j)) == ThreadId(nowMs)
  {
    var all := rows + ThreadRows(parts, accountId, source, nowMs);
    var id := PartId(nowMs, j);
    forall i | 0 <= i < |rows| + j ensures !HasDraftId(id)(all[i]) {
      if i >= |rows| {
        PartIdsDiffer(nowMs, i - |rows|, j);
      }
    }
    FirstWhereAt(all, HasDraftId(id), |rows| + j);
  }
}
