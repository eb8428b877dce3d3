/**
 * The custom dialogs of uiDialogs.js: the HTML escaping of the message,
 * the button sets of `cAlert` and `cConfirm`, and which value a key press
 * or a button click resolves the dialog's promise with.
 */
module UiDialogs {
  import opened Js

  /** `str.replace(/c/g, rep)` for a one-character pattern. */
  function ReplaceChar(s: string, c: char, rep: string): (r: string)
    ensures c !in s ==> r == s
  {
    if s == [] then [] else (if s[0] == c then rep else [s[0]]) + ReplaceChar(s[1..], c, rep)
  }

  lemma {:induction false} ReplaceCharAppend(a: string, b: string, c: char, rep: string)
    ensures ReplaceChar(a + b, c, rep) == ReplaceChar(a, c, rep) + ReplaceChar(b, c, rep)
  {
    if a != [] {
      assert (a + b)[0] == a[0];
      assert (a + b)[1..] == a[1..] + b;
      ReplaceCharAppend(a[1..], b, c, rep);
    } else {
      assert a + b == b;
    }
  }

  /** `escapeHtml(str)`: `&` first, then `<`, then `>`. */
  function EscapeHtml(s: string): string
  {
    ReplaceChar(ReplaceChar(ReplaceChar(s, '&', "&amp;"), '<', "&lt;"), '>', "&gt;")
  }

  /**
   * The escaped form of one character, at each stage of unescaping: stage 0
   * is the output of `escapeHtml`, stage 1 has `&lt;` undone, stage 2 also
   * `&gt;`, and stage 3 is the character itself.
   */
  function Token(c: char, stage: nat): string
  {
    if c == '&' && stage < 3 then "&amp;"
    else if c == '<' && stage < 1 then "&lt;"
    else if c == '>' && stage < 2 then "&gt;"
    else [c]
  }

  function Tokens(s: string, stage: nat): (r: string)
    ensures stage >= 3 ==> r == s
  {
    if s == [] then [] else Token(s[0], stage) + Tokens(s[1..], stage)
  }

  /** `escapeHtml` replaces each character by its token. */
  lemma {:induction false} EscapeIsTokens(s: string)
    ensures EscapeHtml(s) == Tokens(s, 0)
  {
    if s != [] {
      var c, t := s[0], s[1..];
      assert s == [c] + t;
      ReplaceCharAppend([c], t, '&', "&amp;");
      var a1, b1 := ReplaceChar([c], '&', "&amp;"), ReplaceChar(t, '&', "&amp;");
      ReplaceCharAppend(a1, b1, '<', "&lt;");
      var a2, b2 := ReplaceChar(a1, '<', "&lt;"), ReplaceChar(b1, '<', "&lt;");
      ReplaceCharAppend(a2, b2, '>', "&gt;");
      EscapeOne(c);
      EscapeIsTokens(t);
    }
  }

  lemma EscapeOne(c: char)
    ensures ReplaceChar(ReplaceChar(ReplaceChar([c], '&', "&amp;"), '<', "&lt;"), '>', "&gt;") == Token(c, 0)
  {
    ReplaceSingle(c, '&', "&amp;");
    if c == '&' {
      PassLeaves("&amp;", '<', "&lt;");
      PassLeaves("&amp;", '>', "&gt;");
    } else {
      ReplaceSingle(c, '<', "&lt;");
      if c == '<' {
        PassLeaves("&lt;", '>', "&gt;");
      } else {
        ReplaceSingle(c, '>', "&gt;");
      }
    }
  }

  lemma ReplaceSingle(c: char, d: char, rep: string)
    ensures ReplaceChar([c], d, rep) == if c == d then rep else [c]
  {
    assert [c][1..] == [];
  }

  /** A replacement text without the replaced character is not touched by the later passes. */
  lemma PassLeaves(s: string, c: char, rep: string)
    requires c !in s
    ensures ReplaceChar(s, c, rep) == s
  {
  }

  /** The escaped text has no `<` and no `>` left, so it cannot open or close a tag. */
  lemma {:induction false} EscapeRemovesBrackets(s: string)
    ensures '<' !in EscapeHtml(s) && '>' !in EscapeHtml(s)
  {
    EscapeIsTokens(s);
    TokensNoBrackets(s);
  }

  lemma {:induction false} TokensNoBrackets(s: string)
    ensures '<' !in Tokens(s, 0) && '>' !in Tokens(s, 0)
  {
    if s != [] {
      TokensNoBrackets(s[1..]);
    }
  }

  /** Text with none of `&`, `<`, `>` is left as it is. */
  lemma PlainTextUnchanged(s: string)
    requires '&' !in s && '<' !in s && '>' !in s
    ensures EscapeHtml(s) == s
  {
  }

  function Count(s: string, c: char): nat
  {
    if s == [] then 0 else (if s[0] == c then 1 else 0) + Count(s[1..], c)
  }

  /** Each `&` grows by four characters, each `<` and `>` by three. */
  lemma {:induction false} EscapeLength(s: string)
    ensures |EscapeHtml(s)| == |s| + 4 * Count(s, '&') + 3 * Count(s, '<') + 3 * Count(s, '>')
  {
    EscapeIsTokens(s);
    TokensLength(s);
  }

  lemma {:induction false} TokensLength(s: string)
    ensures |Tokens(s, 0)| == |s| + 4 * Count(s, '&') + 3 * Count(s, '<') + 3 * Count(s, '>')
  {
    if s != [] {
      TokensLength(s[1..]);
    }
  }

  /** `str.replace(new RegExp(pat, 'g'), rep)` for a literal pattern: left to right, no overlaps. */
  function ReplaceStr(s: string, pat: string, rep: string): string
    requires |pat| > 0
    decreases |s|
  {
    if |s| < |pat| then s
    else if s[..|pat|] == pat then rep + ReplaceStr(s[|pat|..], pat, rep)
    else [s[0]] + ReplaceStr(s[1..], pat, rep)
  }

  /** Unescaping `&lt;`, then `&gt;`, then `&amp;`. */
  function Unescape(s: string): string
  {
    ReplaceStr(ReplaceStr(ReplaceStr(s, "&lt;", "<"), "&gt;", ">"), "&amp;", "&")
  }

  /** A prefix that does not contain the pattern's first character is copied as it is. */
  lemma {:induction false} CopyPrefix(u: string, t: string, pat: string, rep: string)
    requires |pat| > 0 && pat[0] !in u
    ensures ReplaceStr(u + t, pat, rep) == u + ReplaceStr(t, pat, rep)
  {
    if u == [] {
      assert u + t == t;
    } else {
      var s := u + t;
      assert s[0] == u[0] && s[1..] == u[1..] + t;
      CopyPrefix(u[1..], t, pat, rep);
      if |s| >= |pat| {
        assert s[..|pat|][0] == u[0];
        assert ReplaceStr(s, pat, rep) == [u[0]] + ReplaceStr(s[1..], pat, rep);
      }
      assert u == [u[0]] + u[1..];
    }
  }

  /** A token that starts like the pattern but differs from it is copied as it is. */
  lemma CopyNearMiss(u: string, t: string, pat: string, rep: string)
    requires |pat| > 0 && |u| >= |pat| && u[..|pat|] != pat && pat[0] !in u[1..]
    ensures ReplaceStr(u + t, pat, rep) == u + ReplaceStr(t, pat, rep)
  {
    var s := u + t;
    assert s[..|pat|] == u[..|pat|];
    assert s[0] == u[0] && s[1..] == u[1..] + t;
    assert ReplaceStr(s, pat, rep) == [u[0]] + ReplaceStr(s[1..], pat, rep);
    CopyPrefix(u[1..], t, pat, rep);
    assert u == [u[0]] + u[1..];
  }

  function Pattern(stage: nat): string
  {
    if stage == 0 then "&lt;" else if stage == 1 then "&gt;" else "&amp;"
  }

  function Replacement(stage: nat): string
  {
    if stage == 0 then "<" else if stage == 1 then ">" else "&"
  }

  /** A whole token equal to the pattern is replaced. */
  lemma Hit(t: string, pat: string, rep: string)
    requires |pat| > 0
    ensures ReplaceStr(pat + t, pat, rep) == rep + ReplaceStr(t, pat, rep)
  {
    assert (pat + t)[..|pat|] == pat;
    assert (pat + t)[|pat|..] == t;
  }

  /** One unescaping pass carries every token from one stage to the next. */
  lemma TokenStep(c: char, stage: nat, t: string)
    requires stage < 3
    ensures ReplaceStr(Token(c, stage) + t, Pattern(stage), Replacement(stage))
      == Token(c, stage + 1) + ReplaceStr(t, Pattern(stage), Replacement(stage))
  {
    var pat, rep := Pattern(stage), Replacement(stage);
    var u := Token(c, stage);
    if (c == '&' && stage == 2) || (c == '<' && stage == 0) || (c == '>' && stage == 1) {
      assert u == pat && Token(c, stage + 1) == rep;
      Hit(t, pat, rep);
    } else if c == '&' || (c == '>' && stage == 0) {
      assert u == Token(c, stage + 1);
      assert u[..|pat|][1] == u[1] != pat[1];
      assert '&' !in u[1..];
      CopyNearMiss(u, t, pat, rep);
    } else {
      assert u == [c] && u == Token(c, stage + 1);
      CopyPrefix(u, t, pat, rep);
    }
  }

  lemma {:induction false} PassStep(s: string, stage: nat)
    requires stage < 3
    ensures ReplaceStr(Tokens(s, stage), Pattern(stage), Replacement(stage)) == Tokens(s, stage + 1)
  {
    if s == [] {
    } else {
      TokenStep(s[0], stage, Tokens(s[1..], stage));
      PassStep(s[1..], stage);
    }
  }

  /** Because `&` is escaped first, unescaping `&lt;`, `&gt;` and then `&amp;` gives the text back. */
  lemma UnescapeEscape(s: string)
    ensures Unescape(EscapeHtml(s)) == s
  {
    EscapeIsTokens(s);
    PassStep(s, 0);
    PassStep(s, 1);
    PassStep(s, 2);
  }

  /** One dialog button: `{ text, variant, value }`. */
  datatype Button = Button(text: string, variant: string, value: bool)

  /** The option defaults of `cAlert` and `cConfirm`. */
  const AlertTitle: string := "Alert"
  const AlertOk: string := "OK"
  const ConfirmTitle: string := "Confirm"
  const ConfirmOk: string := "Yes"
  const ConfirmCancel: string := "Cancel"

  /** The buttons of `cAlert`: a single OK that resolves `true`. */
  function AlertButtons(okText: string, variant: string): (r: seq<Button>)
    ensures |r| == 1 && r[0].value && r[0].text == okText
  {
    [Button(okText, variant, true)]
  }

  /** The buttons of `cConfirm`: Cancel (`false`) first, OK (`true`) last. */
  function ConfirmButtons(cancelText: string, okText: string, okVariant: string): (r: seq<Button>)
    ensures |r| == 2
    ensures !r[0].value && r[0].text == cancelText && r[0].variant == "ghost"
    ensures r[1].value && r[1].text == okText
  {
    [Button(cancelText, "ghost", false), Button(okText, okVariant, true)]
  }

  /** One `showModal` call: the page fragment, its keydown listener and the promise. */
  class Modal {
    var buttons: seq<Button>
    /** The header fragment: the title as given. */
    var header: string
    /** The body fragment: the escaped message. */
    var body: string
    /** The keydown listener on `window` is registered. */
    var listening: bool
    /** The overlay is in the page. */
    var shown: bool
    /** What the promise resolved with, once it has. */
    var resolved: Option<bool>

    /** Between steps the dialog is either open and unresolved, or closed and resolved. */
    predicate Valid()
      reads this
    {
      listening == shown && (shown <==> resolved.None?)
    }

    /** `showModal({ title, message, buttons, ... })` */
    constructor(title: string, message: string, buttons: seq<Button>)
      ensures Valid()
      ensures this.buttons == buttons && header == title && body == EscapeHtml(message)
      ensures listening && shown && resolved == None
    {
      this.buttons := buttons;
      header := title;
      body := EscapeHtml(message);
      listening := true;
      shown := true;
      resolved := None;
    }

    /** `clickHandler(val)`: clean up (remove the listener and the overlay), then resolve. */
    method Resolve(v: bool)
      requires Valid() && shown
      modifies this
      ensures Valid()
      ensures resolved == Some(v) && !listening && !shown
      ensures buttons == old(buttons) && header == old(header) && body == old(body)
    {
      listening := false;
      shown := false;
      resolved := Some(v);
    }

    /** A click on button i. */
    method Click(i: nat)
      requires Valid() && shown && i < |buttons|
      modifies this
      ensures buttons == old(buttons) && header == old(header) && body == old(body)
      ensures Valid()
      ensures resolved == Some(buttons[i].value) && !shown
    {
      Resolve(buttons[i].value);
    }

    /** A keydown on the window: Escape resolves `false`, Enter clicks the last button. */
    method KeyDown(key: string)
      requires Valid()
      modifies this
      ensures Valid()
      ensures !old(listening) ==> resolved == old(resolved) && shown == old(shown)
      ensures old(listening) && key == "Escape" ==> resolved == Some(false) && !shown
      ensures old(listening) && key == "Enter" && |buttons| > 0 ==>
        resolved == Some(buttons[|buttons| - 1].value) && !shown
      ensures old(listening) && key != "Escape" && (key != "Enter" || |buttons| == 0) ==>
        resolved == old(resolved) && shown == old(shown)
      ensures buttons == old(buttons) && header == old(header) && body == old(body)
    {
      if !listening {
        return;
      }
      if key == "Escape" {
        Resolve(false);
      }
      if key == "Enter" && |buttons| > 0 {
        Click(|buttons| - 1);
      }
    }
  }

  /** Enter on a confirmation dialog answers yes; Escape answers no. */
  method ConfirmKeys(message: string, key: string) returns (answer: Option<bool>)
    ensures key == "Enter" ==> answer == Some(true)
    ensures key == "Escape" ==> answer == Some(false)
    ensures key != "Enter" && key != "Escape" ==> answer == None
  {
    var modal := new Modal(ConfirmTitle, message, ConfirmButtons(ConfirmCancel, ConfirmOk, "danger"));
    modal.KeyDown(key);
    answer := modal.resolved;
  }
}
