/**
  Names shared by the object types: the VK web address, the
  `f"{ownerId}_{entityId}"` id composition and the "title (subtitle)"
  full title with its doubled brackets collapsed
  (vkmusix/types/track.py:98, vkmusix/types/album.py:94).
 */
module Naming {
  import opened Wrappers
  import opened PyValue
  import opened Errors
  import Text
  import ApiTracks

  /** The web address urls are built on; vkmusix/config.py is not part of
      this model, the value is the one its docstrings show. */
  const VK: string := "https://vk.com/"

  /** `f"{ownerId}_{entityId}"`. */
  function JoinedId(ownerId: Value, entityId: Value): string {
    Format(ownerId) + "_" + Format(entityId)
  }

  /** Integer ids composed into "owner_entity" read back as the same pair. */
  lemma JoinedIdRoundTrip(o: int, t: int)
    ensures ApiTracks.ParseAudioId(JoinedId(VInt(o), VInt(t))) == Ok((o, t))
  {
    assert JoinedId(VInt(o), VInt(t)) == ApiTracks.IdText(o, t);
    ApiTracks.AudioIdRoundTrip(o, t);
  }

  /** Text ids free of "_" split back into their two halves. */
  lemma JoinedIdSplits(o: string, t: string)
    requires '_' !in o && '_' !in t
    ensures Text.Split(JoinedId(VStr(o), VStr(t)), '_') == [o, t]
  {
    Text.SplitAfterHead(o, t, '_');
    Text.SplitWhole(t, '_');
  }

  /** `str(title)` inside the f-string: a missing title prints as "None". */
  function TitleText(title: Option<string>): string {
    match title
    case Some(t) => t
    case None => "None"
  }

  /** The four `.replace` calls that collapse doubled brackets. */
  function Collapse(s: string): string {
    Text.Replace(Text.Replace(Text.Replace(Text.Replace(s, "((", "("), "))", ")"), "([", "("), "])", ")")
  }

  /** `fullTitle`: the title alone when the subtitle is falsy (None or
      empty), otherwise "title (subtitle)" with doubled brackets collapsed. */
  function FullTitle(title: Option<string>, subtitle: Option<string>): (r: Option<string>)
    ensures subtitle.None? || subtitle == Some("") ==> r == title
    ensures subtitle.Some? && subtitle.value != "" ==> r.Some?
  {
    match subtitle
    case None => title
    case Some(sub) => if sub == "" then title else Some(Collapse(TitleText(title) + " (" + sub + ")"))
  }

  predicate Bracketless(s: string) {
    forall k :: 0 <= k < |s| ==> s[k] != '(' && s[k] != ')' && s[k] != '[' && s[k] != ']'
  }

  /** A replacement whose pattern holds a character the text lacks changes nothing. */
  lemma ReplaceAbsent(s: string, pat: string, rep: string, c: char)
    requires |pat| > 0 && c in pat && c !in s
    ensures Text.Replace(s, pat, rep) == s
  {
    Text.MissingCharNotContained(s, pat, c);
  }

  /** "(" followed by text without "(" holds no "((". */
  lemma OpenThenPlain(tail: string)
    requires |tail| > 0 && '(' !in tail
    ensures Text.Replace("(" + tail, "((", "(") == "(" + tail
  {
    var t := "(" + tail;
    assert t[..2][1] == tail[0];
    assert t[1..] == tail;
    ReplaceAbsent(tail, "((", "(", '(');
  }

  /** A closing ")" after text without ")" is not doubled. */
  lemma CloseAfterPlain(x: string)
    requires forall k :: 0 <= k < |x| ==> x[k] != ')'
    ensures Text.Replace(x + ")", "))", ")") == x + ")"
  {
    Text.ReplaceSkips(x, ")", "))", ")");
  }

  /** "))" after text without ")" becomes one ")". */
  lemma DoubleCloseAfterPlain(x: string)
    requires forall k :: 0 <= k < |x| ==> x[k] != ')'
    ensures Text.Replace(x + "))", "))", ")") == x + ")"
  {
    Text.ReplaceSkips(x, "))", "))", ")");
    DoubleCloseAlone();
  }

  lemma DoubleCloseAlone()
    ensures Text.Replace("))", "))", ")") == ")"
  {
    var v: string := "))";
    assert v[..|v|] == v;
    assert |v[|v|..]| == 0;
    assert Text.Replace(v[|v|..], v, ")") == [];
    assert Text.Replace(v, v, ")") == ")" + [];
  }

  /** No square brackets: the last two replacements change nothing. */
  lemma NoSquares(s: string)
    requires '[' !in s && ']' !in s
    ensures Text.Replace(Text.Replace(s, "([", "("), "])", ")") == s
  {
    ReplaceAbsent(s, "([", "(", '[');
    ReplaceAbsent(s, "])", ")", ']');
  }

  /** Brackets nowhere but in the two that are added: nothing collapses. */
  lemma FullTitlePlain(title: string, sub: string)
    requires Bracketless(title) && Bracketless(sub) && sub != ""
    ensures FullTitle(Some(title), Some(sub)) == Some(title + " (" + sub + ")")
  {
    var head := title + " ";
    var tail := sub + ")";
    var body := title + " (" + sub;
    var s := title + " (" + sub + ")";
    PlainShape(title, sub);
    SpaceAfterPlain(title);
    Text.ReplaceSkips(head, "(" + tail, "((", "(");
    CloseAfterPlainSub(sub);
    OpenThenPlain(tail);
    BodyWithoutClose(title, sub);
    CloseAfterPlain(body);
    SquareFree(title, sub);
    NoSquares(s);
  }

  /** "title (sub)" cut before its "(" and before its last ")". */
  lemma PlainShape(title: string, sub: string)
    ensures title + " (" + sub + ")" == (title + " ") + ("(" + (sub + ")"))
    ensures title + " (" + sub + ")" == (title + " (" + sub) + ")"
  {
  }

  /** A bracket-free subtitle and its closing ")" hold no "(". */
  lemma CloseAfterPlainSub(sub: string)
    requires Bracketless(sub)
    ensures |sub + ")"| > 0 && '(' !in sub + ")"
  {
    var tail := sub + ")";
    forall k | 0 <= k < |tail|
      ensures tail[k] != '('
    {
      if k < |sub| {
        assert tail[k] == sub[k];
      }
    }
  }

  /** "title (sub" holds no ")" when neither part does. */
  lemma BodyWithoutClose(title: string, sub: string)
    requires Bracketless(title) && Bracketless(sub)
    ensures forall k :: 0 <= k < |title + " (" + sub| ==> (title + " (" + sub)[k] != ')'
  {
    var body := title + " (" + sub;
    forall k | 0 <= k < |body|
      ensures body[k] != ')'
    {
      if k < |title| {
        assert body[k] == title[k];
      } else if k >= |title| + 2 {
        assert body[k] == sub[k - |title| - 2];
      }
    }
  }

  /** "title (sub)" holds no square bracket when neither part does. */
  lemma SquareFree(title: string, sub: string)
    requires Bracketless(title) && Bracketless(sub)
    ensures var s := title + " (" + sub + ")"; '[' !in s && ']' !in s
  {
    var s := title + " (" + sub + ")";
    forall k | 0 <= k < |s|
      ensures s[k] != '[' && s[k] != ']'
    {
      if k < |title| {
        assert s[k] == title[k];
      } else if |title| + 2 <= k < |title| + 2 + |sub| {
        assert s[k] == sub[k - |title| - 2];
      }
    }
  }

  /** "((" opening text without "(" collapses to one "(". */
  lemma OpenDoubled(sub: string)
    requires forall k :: 0 <= k < |sub| ==> sub[k] != '('
    ensures Text.Replace("((" + (sub + "))"), "((", "(") == "(" + (sub + "))")
  {
    var u := "((" + (sub + "))");
    assert u[..2] == "((" && u[2..] == sub + "))";
    Text.ReplaceSkips(sub, "))", "((", "(");
    ReplaceAbsent("))", "((", "(", '(');
  }

  /** The first collapse on "title ((sub))". */
  lemma CollapseOpenParenthesised(title: string, sub: string)
    requires Bracketless(title) && Bracketless(sub)
    ensures Text.Replace(title + " (" + ("(" + sub + ")") + ")", "((", "(") == title + " (" + sub + "))"
  {
    var head := title + " ";
    ParenthesisedShape(title, sub);
    SpaceAfterPlain(title);
    Text.ReplaceSkips(head, "((" + (sub + "))"), "((", "(");
    OpenDoubled(sub);
  }

  /** "title ((sub))" is the title and a space before "((sub))", and
      "title (sub))" the same before "(sub))". */
  lemma ParenthesisedShape(title: string, sub: string)
    ensures title + " (" + ("(" + sub + ")") + ")" == (title + " ") + ("((" + (sub + "))"))
    ensures (title + " ") + ("(" + (sub + "))")) == title + " (" + sub + "))"
  {
  }

  /** A bracket-free title followed by a space holds no bracket. */
  lemma SpaceAfterPlain(title: string)
    requires Bracketless(title)
    ensures Bracketless(title + " ")
    ensures forall k :: 0 <= k < |title + " "| ==> (title + " ")[k] != '('
  {
    var head := title + " ";
    forall k | 0 <= k < |head|
      ensures head[k] != '(' && head[k] != ')' && head[k] != '[' && head[k] != ']'
    {
      if k < |title| {
        assert head[k] == title[k];
      }
    }
  }

  /** A subtitle already wrapped in parentheses is not doubled:
      "title ((sub))" collapses to "title (sub)". */
  lemma FullTitleParenthesised(title: string, sub: string)
    requires Bracketless(title) && Bracketless(sub)
    ensures FullTitle(Some(title), Some("(" + sub + ")")) == Some(title + " (" + sub + ")")
  {
    var body := title + " (" + sub;
    CollapseOpenParenthesised(title, sub);
    BodyWithoutClose(title, sub);
    DoubleCloseAfterPlain(body);
    assert title + " (" + sub + "))" == body + "))";
    SquareFree(title, sub);
    PlainShape(title, sub);
    NoSquares(body + ")");
  }
}
