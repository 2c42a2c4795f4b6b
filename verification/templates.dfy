/** The tmux command templates and `str.format` with the two fields
    `{name}` and `{ssh}`. A template is a sequence of literal text and
    field references; filling it substitutes the values verbatim, so a
    value containing braces is never re-read as a field. */
module Templates {

  datatype Segment = Text(text: string) | NameField | SshField

  type Template = seq<Segment>

  function FillSegment(seg: Segment, name: string, ssh: string): string
  {
    match seg
    case Text(t) => t
    case NameField => name
    case SshField => ssh
  }

  /** `template.format(ssh=ssh, name=name)`. */
  function Render(t: Template, name: string, ssh: string): string
    decreases |t|
  {
    if t == [] then "" else FillSegment(t[0], name, ssh) + Render(t[1..], name, ssh)
  }

  /** `sep.join(parts)` on strings. */
  function JoinStrings(parts: seq<string>, sep: string): string
    decreases |parts|
  {
    if |parts| == 0 then ""
    else if |parts| == 1 then parts[0]
    else parts[0] + sep + JoinStrings(parts[1..], sep)
  }

  /** `sep.join(parts)` on unformatted templates: the separator is plain text. */
  function JoinTemplates(parts: seq<Template>, sep: string): Template
    decreases |parts|
  {
    if |parts| == 0 then []
    else if |parts| == 1 then parts[0]
    else parts[0] + [Text(sep)] + JoinTemplates(parts[1..], sep)
  }

  /** Every part filled with the same values. */
  function RenderAll(parts: seq<Template>, name: string, ssh: string): (rendered: seq<string>)
    ensures |rendered| == |parts|
    ensures forall i :: 0 <= i < |parts| ==> rendered[i] == Render(parts[i], name, ssh)
  {
    seq(|parts|, i requires 0 <= i < |parts| => Render(parts[i], name, ssh))
  }

  /** `_CHECK_SESSION`, `_NEW_SESSION` and `_NEW_WINDOW` of the source. */
  const CheckSession: Template := [Text("tmux has-session 2> /dev/null ")]
  const NewSession: Template := [Text("tmux new-session -d -n "), NameField, Text(" '"), SshField, Text("'")]
  const NewWindow: Template := [Text("tmux new-window -n "), NameField, Text(" '"), SshField, Text("'")]

  /** The first template the generator yields: the check-session test,
      then new-window if it succeeded, else new-session. */
  const Bootstrap: Template := JoinTemplates([CheckSession, [Text("&&")], NewWindow, [Text("||")], NewSession], " ")

  /** Filling distributes over concatenation of templates. */
  lemma {:induction false} RenderAppend(a: Template, b: Template, name: string, ssh: string)
    ensures Render(a + b, name, ssh) == Render(a, name, ssh) + Render(b, name, ssh)
    decreases |a|
  {
    if a == [] {
      assert a + b == b;
    } else {
      assert (a + b)[1..] == a[1..] + b;
      RenderAppend(a[1..], b, name, ssh);
    }
  }

  /** Joining the templates and then filling the result gives the same
      string as filling each template and joining the strings. */
  lemma {:induction false} RenderJoin(parts: seq<Template>, sep: string, name: string, ssh: string)
    ensures Render(JoinTemplates(parts, sep), name, ssh) == JoinStrings(RenderAll(parts, name, ssh), sep)
    decreases |parts|
  {
    if |parts| <= 1 {
    } else {
      var rest := JoinTemplates(parts[1..], sep);
      RenderAppend(parts[0] + [Text(sep)], rest, name, ssh);
      RenderAppend(parts[0], [Text(sep)], name, ssh);
      RenderJoin(parts[1..], sep, name, ssh);
      assert RenderAll(parts, name, ssh)[1..] == RenderAll(parts[1..], name, ssh);
    }
  }

  /** The segments spell out the source's template text when each field
      is filled with its own placeholder. */
  lemma TemplatesMatchSourceText()
    ensures Render(CheckSession, "{name}", "{ssh}") == "tmux has-session 2> /dev/null "
    ensures Render(NewSession, "{name}", "{ssh}") == "tmux new-session -d -n {name} '{ssh}'"
    ensures Render(NewWindow, "{name}", "{ssh}") == "tmux new-window -n {name} '{ssh}'"
  {
  }

  /** The filled new-window form names the window and runs the ssh command. */
  lemma RenderNewWindow(name: string, ssh: string)
    ensures Render(NewWindow, name, ssh) == "tmux new-window -n " + name + " '" + ssh + "'"
  {
  }

  /** The filled new-session form. */
  lemma RenderNewSession(name: string, ssh: string)
    ensures Render(NewSession, name, ssh) == "tmux new-session -d -n " + name + " '" + ssh + "'"
  {
  }

  /** The filled bootstrap form: the check-session text (whose trailing
      space and the join's separator leave two spaces before `&&`), then
      new-window, then `||` and new-session, with both fields filled in
      both places. */
  lemma RenderBootstrap(name: string, ssh: string)
    ensures Render(Bootstrap, name, ssh)
         == "tmux has-session 2> /dev/null  && "
          + ("tmux new-window -n " + name + " '" + ssh + "'")
          + " || "
          + ("tmux new-session -d -n " + name + " '" + ssh + "'")
  {
    var parts := [CheckSession, [Text("&&")], NewWindow, [Text("||")], NewSession];
    var check := "tmux has-session 2> /dev/null ";
    var nw := "tmux new-window -n " + name + " '" + ssh + "'";
    var ns := "tmux new-session -d -n " + name + " '" + ssh + "'";
    RenderJoin(parts, " ", name, ssh);
    var rendered := RenderAll(parts, name, ssh);
    assert rendered == [check, "&&", nw, "||", ns] by {
      RenderText(check, name, ssh);
      RenderText("&&", name, ssh);
      RenderText("||", name, ssh);
      RenderNewWindow(name, ssh);
      RenderNewSession(name, ssh);
    }
    assert JoinStrings(rendered, " ") == (check + " " + "&&" + " ") + nw + (" " + "||" + " ") + ns by {
      JoinFive(check, "&&", nw, "||", ns, " ");
    }
    assert check + " " + "&&" + " " == "tmux has-session 2> /dev/null  && ";
    assert " " + "||" + " " == " || ";
  }

  /** A template of plain text fills to that text. */
  lemma RenderText(t: string, name: string, ssh: string)
    ensures Render([Text(t)], name, ssh) == t
  {
    assert Render([Text(t)], name, ssh) == t + "";
  }

  /** Joining five strings, written out. */
  lemma JoinFive(a: string, b: string, c: string, d: string, e: string, sep: string)
    ensures JoinStrings([a, b, c, d, e], sep) == a + sep + b + sep + c + sep + d + sep + e
  {
    var parts := [a, b, c, d, e];
    assert parts[1..] == [b, c, d, e];
    assert parts[1..][1..] == [c, d, e];
    assert parts[1..][1..][1..] == [d, e];
    assert parts[1..][1..][1..][1..] == [e];
    assert JoinStrings([d, e], sep) == d + sep + e;
    assert JoinStrings([c, d, e], sep) == c + sep + (d + sep + e);
    assert JoinStrings([b, c, d, e], sep) == b + sep + (c + sep + (d + sep + e));
  }
}
