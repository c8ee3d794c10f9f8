/** The HTML fragments the certificate is assembled from. Every paragraph
    of the certificate is a bold caption followed by a value; the template
    writes it in two spacings, with and without a blank between the caption
    and the value. */
module Markup {
  import opened Js

  /** `<p><strong>caption</strong><span>value</span></p>`. */
  function Tight(caption: string, value: string): string {
    "<p><strong>" + caption + "</strong><span>" + value + "</span></p>"
  }

  /** `<p><strong>caption</strong> <span>value</span></p>`. */
  function Spaced(caption: string, value: string): string {
    "<p><strong>" + caption + "</strong> <span>" + value + "</span></p>"
  }

  /** An opening `div` tag with the given class attribute. */
  function Div(cls: string): string {
    "<div class=\"" + cls + "\">"
  }

  const EndDiv := "</div>"

  /** A section heading. */
  function Heading(title: string): string {
    "<h3>" + title + "</h3>"
  }

  /** An HTML comment. */
  function Comment(text: string): string {
    "<!-- " + text + " -->"
  }

  // ----- The layout of the certificate's sections -----

  /** What an optional section writes when it is left out: its comment line
      and the blank line the condition sits on. */
  function Hidden(comment: string): string {
    Line(14, Comment(comment)) + Line(14, "")
  }

  /** A section written only under `shown`. */
  function Optional(comment: string, shown: bool, panel: string): string {
    Hidden(comment) + (if shown then panel else "")
  }

  function PanelOpen(title: string): string {
    Line(16, Div("preview-section")) + Line(18, Heading(title))
  }

  const PanelClose := Line(16, EndDiv) + Line(14, "")

  /** The panel of an optional section: the section tag, its heading, the
      content, and the closing tag. */
  function Panel(title: string, content: string): string {
    PanelOpen(title) + content + PanelClose
  }

  /** One card of a list inside a section: the card tag at indentation 20,
      its lines, the closing tag and the blank line where the item's
      template ends. */
  function ItemCard(body: string): string {
    Line(20, Div("preview-card")) + body + Line(20, EndDiv) + Line(18, "")
  }

  /** A left-out section writes only its comment; a shown one writes the
      comment followed by all of its panel. */
  lemma OptionalLayout(comment: string, shown: bool, panel: string)
    ensures !shown ==> Optional(comment, shown, panel) == Hidden(comment)
    ensures shown ==> Optional(comment, shown, panel) == Hidden(comment) + panel
    ensures shown ==> Contains(Optional(comment, shown, panel), panel)
  {
    if shown {
      ContainsLast(Hidden(comment), panel);
    }
  }

  /** A panel writes its heading and its content. */
  lemma PanelShows(title: string, content: string)
    ensures Contains(Panel(title, content), Heading(title))
    ensures Contains(Panel(title, content), content)
  {
    ContainsMiddle(PanelOpen(title), content, PanelClose);
    ContainsFirst(PanelOpen(title), content, PanelClose);
    ContainsLast(Line(16, Div("preview-section")), Line(18, Heading(title)));
    LineShows(18, Heading(title));
    ContainsTrans(PanelOpen(title), Line(18, Heading(title)), Heading(title));
    ContainsTrans(Panel(title, content), PanelOpen(title), Heading(title));
  }

  lemma ItemCardShows(body: string)
    ensures Contains(ItemCard(body), body)
  {
    ContainsMiddle(Line(20, Div("preview-card")), body, Line(20, EndDiv) + Line(18, ""));
    assert ItemCard(body) == Line(20, Div("preview-card")) + body + (Line(20, EndDiv) + Line(18, ""));
  }

  /** What a shown section's panel writes is written by the section. */
  lemma ShownIn(comment: string, shown: bool, panel: string, t: string)
    requires shown && Contains(panel, t)
    ensures Contains(Optional(comment, shown, panel), t)
  {
    OptionalLayout(comment, shown, panel);
    ContainsTrans(Optional(comment, shown, panel), panel, t);
  }

  /** A shown section writes its heading. */
  lemma HeadingShown(comment: string, shown: bool, title: string, content: string)
    requires shown
    ensures Contains(Optional(comment, shown, Panel(title, content)), Heading(title))
  {
    PanelShows(title, content);
    ShownIn(comment, shown, Panel(title, content), Heading(title));
  }

  /** What a section's content writes is written by the section when shown. */
  lemma ContentShown(comment: string, shown: bool, title: string, content: string, t: string)
    requires shown && Contains(content, t)
    ensures Contains(Optional(comment, shown, Panel(title, content)), t)
  {
    PanelShows(title, content);
    ContainsTrans(Panel(title, content), content, t);
    ShownIn(comment, shown, Panel(title, content), t);
  }

  /** Each item of a list written on its own template line is written. */
  lemma ItemOnLine<T>(indent: nat, xs: seq<T>, f: T -> string, k: nat)
    requires k < |xs|
    ensures Contains(Line(indent, JoinMap(xs, f)), f(xs[k]))
  {
    JoinMapContains(xs, f, k);
    LineShows(indent, JoinMap(xs, f));
    ContainsTrans(Line(indent, JoinMap(xs, f)), JoinMap(xs, f), f(xs[k]));
  }

  /** The layout of an optional panel: left out it writes only its comment;
      shown, it writes its heading and everything its content writes. */
  lemma PanelLayout(comment: string, shown: bool, title: string, content: string)
    ensures !shown ==> Optional(comment, shown, Panel(title, content)) == Hidden(comment)
    ensures shown ==> Contains(Optional(comment, shown, Panel(title, content)), Heading(title))
    ensures forall t :: shown && Contains(content, t) ==> Contains(Optional(comment, shown, Panel(title, content)), t)
  {
    OptionalLayout(comment, shown, Panel(title, content));
    if shown {
      HeadingShown(comment, shown, title, content);
      forall t | Contains(content, t)
        ensures Contains(Optional(comment, shown, Panel(title, content)), t)
      {
        ContentShown(comment, shown, title, content, t);
      }
    }
  }

  /** A shown panel whose content is one template line keeps the order of that line. */
  lemma LineContentInOrder(comment: string, shown: bool, title: string, indent: nat, text: string, t: string, u: string)
    requires shown && Before(text, t, u)
    ensures Before(Optional(comment, shown, Panel(title, Line(indent, text))), t, u)
  {
    BeforePrepend("\n" + Spaces(indent), text, t, u);
    ContentInOrder(comment, shown, title, Line(indent, text), t, u);
  }

  /** A shown panel whose content is a list on one template line writes
      every item of the list. */
  lemma PanelItems<T>(comment: string, shown: bool, title: string, indent: nat, xs: seq<T>, f: T -> string)
    ensures forall k :: shown && 0 <= k < |xs| ==>
      Contains(Optional(comment, shown, Panel(title, Line(indent, JoinMap(xs, f)))), f(xs[k]))
  {
    forall k | shown && 0 <= k < |xs|
      ensures Contains(Optional(comment, shown, Panel(title, Line(indent, JoinMap(xs, f)))), f(xs[k]))
    {
      ItemOnLine(indent, xs, f, k);
      ContentShown(comment, shown, title, Line(indent, JoinMap(xs, f)), f(xs[k]));
    }
  }

  /** A list on one template line writes its items in the order of the
      list. */
  lemma ItemsOnLineInOrder<T>(indent: nat, xs: seq<T>, f: T -> string, i: nat, j: nat)
    requires i < j < |xs|
    ensures Before(Line(indent, JoinMap(xs, f)), f(xs[i]), f(xs[j]))
  {
    JoinMapOrder(xs, f, i, j);
    BeforePrepend("\n" + Spaces(indent), JoinMap(xs, f), f(xs[i]), f(xs[j]));
  }

  /** A list on a line between two texts keeps the order of the list. */
  lemma ItemsBetweenInOrder<T>(head: string, indent: nat, xs: seq<T>, f: T -> string, tail: string)
    ensures forall i, j :: 0 <= i < j < |xs| ==>
      Before(head + Line(indent, JoinMap(xs, f)) + tail, f(xs[i]), f(xs[j]))
  {
    forall i, j | 0 <= i < j < |xs|
      ensures Before(head + Line(indent, JoinMap(xs, f)) + tail, f(xs[i]), f(xs[j]))
    {
      ItemsOnLineInOrder(indent, xs, f, i, j);
      BeforeIn3(head, Line(indent, JoinMap(xs, f)), tail, f(xs[i]), f(xs[j]));
    }
  }

  /** What a shown panel's content writes in order, the section writes in
      the same order. */
  lemma ContentInOrder(comment: string, shown: bool, title: string, content: string, t: string, u: string)
    requires shown && Before(content, t, u)
    ensures Before(Optional(comment, shown, Panel(title, content)), t, u)
  {
    BeforeIn3(PanelOpen(title), content, PanelClose, t, u);
    BeforePrepend(Hidden(comment), Panel(title, content), t, u);
  }

  /** A shown panel whose content is a list on one template line writes the
      items in the order of the list. */
  lemma PanelItemsInOrder<T>(comment: string, shown: bool, title: string, indent: nat, xs: seq<T>, f: T -> string)
    ensures forall i, j :: shown && 0 <= i < j < |xs| ==>
      Before(Optional(comment, shown, Panel(title, Line(indent, JoinMap(xs, f)))), f(xs[i]), f(xs[j]))
  {
    forall i, j | shown && 0 <= i < j < |xs|
      ensures Before(Optional(comment, shown, Panel(title, Line(indent, JoinMap(xs, f)))), f(xs[i]), f(xs[j]))
    {
      ItemsOnLineInOrder(indent, xs, f, i, j);
      ContentInOrder(comment, shown, title, Line(indent, JoinMap(xs, f)), f(xs[i]), f(xs[j]));
    }
  }

  /** Every line of a card of two, three or five lines is written in it. */
  lemma CardOfTwo(indent: nat, a: string, b: string)
    ensures Contains(ItemCard(Line(indent, a) + Line(indent, b)), a)
    ensures Contains(ItemCard(Line(indent, a) + Line(indent, b)), b)
  {
    var body := Line(indent, a) + Line(indent, b);
    ItemCardShows(body);
    LineShows(indent, a);
    LineShows(indent, b);
    ContainsLeft(Line(indent, a), Line(indent, b));
    ContainsLast(Line(indent, a), Line(indent, b));
    ContainsTrans(body, Line(indent, a), a);
    ContainsTrans(body, Line(indent, b), b);
    ContainsTrans(ItemCard(body), body, a);
    ContainsTrans(ItemCard(body), body, b);
  }

  lemma CardOfThree(indent: nat, a: string, b: string, c: string)
    ensures Contains(ItemCard(Line(indent, a) + Line(indent, b) + Line(indent, c)), a)
    ensures Contains(ItemCard(Line(indent, a) + Line(indent, b) + Line(indent, c)), b)
    ensures Contains(ItemCard(Line(indent, a) + Line(indent, b) + Line(indent, c)), c)
  {
    var body := Line(indent, a) + Line(indent, b) + Line(indent, c);
    ItemCardShows(body);
    Pieces3(Line(indent, a), Line(indent, b), Line(indent, c));
    LineShows(indent, a);
    LineShows(indent, b);
    LineShows(indent, c);
    ContainsTrans(body, Line(indent, a), a);
    ContainsTrans(body, Line(indent, b), b);
    ContainsTrans(body, Line(indent, c), c);
    ContainsTrans(ItemCard(body), body, a);
    ContainsTrans(ItemCard(body), body, b);
    ContainsTrans(ItemCard(body), body, c);
  }

  lemma CardOfFive(indent: nat, a: string, b: string, c: string, d: string, e: string)
    ensures forall t :: t in [a, b, c, d, e] ==>
      Contains(ItemCard(Line(indent, a) + Line(indent, b) + Line(indent, c) + Line(indent, d) + Line(indent, e)), t)
  {
    var body := Line(indent, a) + Line(indent, b) + Line(indent, c) + Line(indent, d) + Line(indent, e);
    ItemCardShows(body);
    Pieces5(Line(indent, a), Line(indent, b), Line(indent, c), Line(indent, d), Line(indent, e));
    forall t | t in [a, b, c, d, e] ensures Contains(ItemCard(body), t) {
      LineShows(indent, t);
      ContainsTrans(body, Line(indent, t), t);
      ContainsTrans(ItemCard(body), body, t);
    }
  }

  /** Each item of a list written on a line between two texts is written. */
  lemma ItemsBetween<T>(head: string, indent: nat, xs: seq<T>, f: T -> string, tail: string)
    ensures forall k :: 0 <= k < |xs| ==> Contains(head + Line(indent, JoinMap(xs, f)) + tail, f(xs[k]))
  {
    var list := Line(indent, JoinMap(xs, f));
    ContainsLast(head, list);
    ContainsInLeft(head + list, tail, list);
    forall k | 0 <= k < |xs|
      ensures Contains(head + list + tail, f(xs[k]))
    {
      ItemOnLine(indent, xs, f, k);
      ContainsTrans(head + list + tail, list, f(xs[k]));
    }
  }

  /** Everything a text writes is written when it is framed by two others. */
  lemma Framed(open: string, body: string, close: string)
    ensures forall t :: Contains(body, t) ==> Contains(open + body + close, t)
  {
    forall t | Contains(body, t) ensures Contains(open + body + close, t) {
      ContainsIn3(open, body, close, t);
    }
  }

  /** The text wrapped inside a template line is written. */
  lemma WrappedLine(indent: nat, pre: string, text: string, post: string)
    ensures Contains(Line(indent, pre + text + post), text)
  {
    LineShows(indent, pre + text + post);
    ContainsMiddle(pre, text, post);
    ContainsTrans(Line(indent, pre + text + post), pre + text + post, text);
  }

  /** What a line's text holds, the line holds. */
  lemma InLine(indent: nat, text: string, t: string)
    requires Contains(text, t)
    ensures Contains(Line(indent, text), t)
  {
    LineShows(indent, text);
    ContainsTrans(Line(indent, text), text, t);
  }

  /** A captioned value made of pieces shows its first and its last piece. */
  lemma TightShowsPieces(caption: string, a: string, m: string, b: string)
    ensures Contains(Tight(caption, a + m + b), a)
    ensures Contains(Tight(caption, a + m + b), b)
  {
    var pre := "<p><strong>" + caption + "</strong><span>";
    var post := "</span></p>";
    assert Tight(caption, a + m + b) == pre + a + (m + b + post);
    assert Tight(caption, a + m + b) == (pre + a + m) + b + post;
    ContainsMiddle(pre, a, m + b + post);
    ContainsMiddle(pre + a + m, b, post);
  }

  /** The caption of a captioned value is written on its line. */
  lemma CaptionOnLine(indent: nat, caption: string, value: string)
    ensures Contains(Line(indent, Tight(caption, value)), caption)
  {
    var post := "</strong><span>" + value + "</span></p>";
    assert Tight(caption, value) == "<p><strong>" + caption + post;
    ContainsMiddle("<p><strong>", caption, post);
    LineShows(indent, Tight(caption, value));
    ContainsTrans(Line(indent, Tight(caption, value)), Tight(caption, value), caption);
  }

  /** The last line of an opening block is written wherever the block is. */
  lemma LastOpeningLine(a: string, b: string, indent: nat, text: string, body: string, close: string)
    ensures Contains(a + b + Line(indent, text) + body + close, text)
  {
    LineShows(indent, text);
    ContainsLast(a + b, Line(indent, text));
    ContainsTrans(a + b + Line(indent, text), Line(indent, text), text);
    ContainsFirst(a + b + Line(indent, text), body, close);
    ContainsTrans(a + b + Line(indent, text) + body + close, a + b + Line(indent, text), text);
  }

  /** The middle line of a card that closes a block is written. */
  lemma ClosingCardLine(open: string, body: string, a: string, indent: nat, text: string, c: string, d: string)
    ensures Contains(open + body + (a + Line(indent, text) + c + d), text)
  {
    LineShows(indent, text);
    ContainsIn3(a, Line(indent, text), c, text);
    ContainsInLeft(a + Line(indent, text) + c, d, text);
    ContainsLast(open + body, a + Line(indent, text) + c + d);
    ContainsTrans(open + body + (a + Line(indent, text) + c + d), a + Line(indent, text) + c + d, text);
  }

  /** Three lines written before a list, inside a frame. */
  lemma LinesBeforeList(open: string, indent: nat, a: string, b: string, c: string, list: string,
                        tail: string, close: string)
    ensures Contains(open + (Line(indent, a) + Line(indent, b) + Line(indent, c) + list + tail) + close, a)
    ensures Contains(open + (Line(indent, a) + Line(indent, b) + Line(indent, c) + list + tail) + close, b)
    ensures Contains(open + (Line(indent, a) + Line(indent, b) + Line(indent, c) + list + tail) + close, c)
  {
    var head := Line(indent, a) + Line(indent, b) + Line(indent, c);
    LinesOfThree(indent, a, b, c);
    ContainsFirst(head, list, tail);
    Framed(open, head + list + tail, close);
    ContainsTrans(head + list + tail, head, a);
    ContainsTrans(head + list + tail, head, b);
    ContainsTrans(head + list + tail, head, c);
  }

  /** Two lines written after a list, inside a frame. */
  lemma LinesAfterList(open: string, head: string, list: string, indent: nat, d: string, e: string,
                       close: string)
    ensures Contains(open + (head + list + (Line(indent, d) + Line(indent, e))) + close, d)
    ensures Contains(open + (head + list + (Line(indent, d) + Line(indent, e))) + close, e)
  {
    var tail := Line(indent, d) + Line(indent, e);
    LinesOfTwo(indent, d, e);
    ContainsLast(head + list, tail);
    Framed(open, head + list + tail, close);
    ContainsTrans(head + list + tail, tail, d);
    ContainsTrans(head + list + tail, tail, e);
  }

  /** Each of two or three consecutive template lines is written. */
  lemma LinesOfTwo(indent: nat, a: string, b: string)
    ensures Contains(Line(indent, a) + Line(indent, b), a)
    ensures Contains(Line(indent, a) + Line(indent, b), b)
  {
    LineShows(indent, a);
    LineShows(indent, b);
    ContainsInLeft(Line(indent, a), Line(indent, b), a);
    ContainsInRight(Line(indent, a), Line(indent, b), b);
  }

  lemma LinesOfThree(indent: nat, a: string, b: string, c: string)
    ensures Contains(Line(indent, a) + Line(indent, b) + Line(indent, c), a)
    ensures Contains(Line(indent, a) + Line(indent, b) + Line(indent, c), b)
    ensures Contains(Line(indent, a) + Line(indent, b) + Line(indent, c), c)
  {
    LinesOfTwo(indent, a, b);
    ContainsInLeft(Line(indent, a) + Line(indent, b), Line(indent, c), a);
    ContainsInLeft(Line(indent, a) + Line(indent, b), Line(indent, c), b);
    LineShows(indent, c);
    ContainsInRight(Line(indent, a) + Line(indent, b), Line(indent, c), c);
  }
}
