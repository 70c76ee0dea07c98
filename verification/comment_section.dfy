/** `CommentSection`: the comment thread of one task, its input box and the
    WhatsApp notification switch. */
module CommentSection {
  import opened Wrappers
  import opened Text
  import opened ProjectTypes

  datatype Toast = Toast(title: string, description: string)

  /** The component's state: the input box, the thread and the switch. */
  datatype Form = Form(newComment: string, comments: seq<Comment>, isWhatsAppEnabled: bool)

  /** The author every comment written here carries. */
  const CurrentAuthor := "Você"

  function SubmitToast(whatsApp: bool): Toast
  {
    Toast("Comentário adicionado",
      if whatsApp then "Sua mensagem foi enviada e notificações serão enviadas via WhatsApp"
      else "Sua mensagem foi enviada com sucesso")
  }

  /** The toast of the switch, worded from the value before the switch. */
  function ToggleToast(wasEnabled: bool): Toast
  {
    if wasEnabled then
      Toast("Notificações WhatsApp desativadas", "Você não receberá mais notificações pelo WhatsApp")
    else
      Toast("Notificações WhatsApp ativadas", "Você receberá notificações por WhatsApp")
  }

  /** `handleCommentSubmit`, with the clock reading (`Date.now()`) and today's
      rendered date as parameters. */
  function SubmitStep(form: Form, nowMillis: nat, today: string): (r: (Form, Option<Toast>))
    ensures r.1.None? ==> r.0 == form
    ensures r.1.Some? ==> r.1.value == SubmitToast(form.isWhatsAppEnabled) && |r.0.comments| == |form.comments| + 1
    ensures r.0.isWhatsAppEnabled == form.isWhatsAppEnabled
  {
    if Trim(form.newComment) == "" then (form, None)
    else
      var comment := Comment("comment-" + NatToString(nowMillis), CurrentAuthor, today, form.newComment);
      (form.(comments := form.comments + [comment], newComment := ""), Some(SubmitToast(form.isWhatsAppEnabled)))
  }

  /** `handleWhatsAppToggle`. */
  function ToggleStep(form: Form): (r: (Form, Toast))
    ensures r.0.isWhatsAppEnabled != form.isWhatsAppEnabled
    ensures r.0.comments == form.comments && r.0.newComment == form.newComment
    ensures r.1 == ToggleToast(form.isWhatsAppEnabled)
  {
    (form.(isWhatsAppEnabled := !form.isWhatsAppEnabled), ToggleToast(form.isWhatsAppEnabled))
  }

  /** A submission is ignored, with no toast, exactly when the input is blank. */
  lemma BlankSubmissionIgnored(form: Form, nowMillis: nat, today: string)
    ensures SubmitStep(form, nowMillis, today).1.None? <==> IsBlank(form.newComment)
    ensures IsBlank(form.newComment) ==> SubmitStep(form, nowMillis, today).0 == form
  {
    TrimEmptyIffBlank(form.newComment);
  }

  /** An accepted comment goes at the end of the thread, written by "Você" with
      the untrimmed input as text; the earlier comments stay, the input is
      cleared and the switch is untouched. */
  lemma SubmissionAppends(form: Form, nowMillis: nat, today: string)
    requires !IsBlank(form.newComment)
    ensures var after := SubmitStep(form, nowMillis, today).0;
      && |after.comments| == |form.comments| + 1
      && after.comments[..|form.comments|] == form.comments
      && after.comments[|form.comments|].author == CurrentAuthor
      && after.comments[|form.comments|].text == form.newComment
      && after.comments[|form.comments|].date == today
      && after.newComment == ""
      && after.isWhatsAppEnabled == form.isWhatsAppEnabled
  {
    TrimEmptyIffBlank(form.newComment);
  }

  /** Comments submitted at different instants get different ids. */
  lemma SubmissionIdsDiffer(form: Form, t1: nat, t2: nat, today: string)
    requires !IsBlank(form.newComment) && t1 != t2
    ensures SubmitStep(form, t1, today).0.comments[|form.comments|].id
         != SubmitStep(form, t2, today).0.comments[|form.comments|].id
  {
    TrimEmptyIffBlank(form.newComment);
    NatToStringInjective(t1, t2);
    PrefixCancel("comment-", NatToString(t1), NatToString(t2));
  }

  /** The switch negates the flag, touches nothing else, and two switches cancel out. */
  lemma ToggleInvolution(form: Form)
    ensures ToggleStep(form).0.isWhatsAppEnabled == !form.isWhatsAppEnabled
    ensures ToggleStep(form).0.comments == form.comments && ToggleStep(form).0.newComment == form.newComment
    ensures ToggleStep(ToggleStep(form).0).0 == form
    ensures ToggleStep(form).1 != ToggleStep(ToggleStep(form).0).1
  {
  }

  // ---------------------------------------------------------------------
  // getInitials

  /** `words.map(word => word[0]).join('')`: an empty word contributes nothing. */
  function FirstLetters(words: seq<string>): string
  {
    if |words| == 0 then ""
    else (if |words[0]| > 0 then [words[0][0]] else "") + FirstLetters(words[1..])
  }

  /** The characters of `s` that start a word: not a space, and at the front
      (when `atStart`) or right after a space. */
  function WordStarts(s: string, atStart: bool): string
  {
    if |s| == 0 then ""
    else (if s[0] != ' ' && atStart then [s[0]] else "") + WordStarts(s[1..], s[0] == ' ')
  }

  /** `name.split(' ').map(w => w[0]).join('').toUpperCase().substring(0, 2)`. */
  function GetInitials(name: string): (r: string)
    ensures |r| <= 2
    ensures forall i :: 0 <= i < |r| ==> !('a' <= r[i] <= 'z')
  {
    var letters := Upper(FirstLetters(Split(name, ' ')));
    if |letters| <= 2 then letters else letters[..2]
  }

  /** The first letters of the space-separated pieces are the word starts. */
  lemma {:induction false} FirstLettersOfSplit(s: string)
    ensures FirstLetters(Split(s, ' ')) == WordStarts(s, true)
    ensures FirstLetters(Split(s, ' ')[1..]) == WordStarts(s, false)
  {
    if |s| > 0 {
      var rest := Split(s[1..], ' ');
      FirstLettersOfSplit(s[1..]);
      if s[0] == ' ' {
        assert Split(s, ' ') == [""] + rest;
        assert Split(s, ' ')[1..] == rest;
      } else {
        var parts := [[s[0]] + rest[0]] + rest[1..];
        assert Split(s, ' ') == parts;
        assert parts[1..] == rest[1..];
      }
    }
  }

  /** The initials are the first two word starts, upper-cased; repeated spaces
      add nothing. */
  lemma InitialsAreWordStarts(name: string)
    ensures var starts := Upper(WordStarts(name, true));
      GetInitials(name) == if |starts| <= 2 then starts else starts[..2]
  {
    FirstLettersOfSplit(name);
  }

  // ---------------------------------------------------------------------
  // The component's state

  class CommentSectionState {
    var newComment: string
    var comments: seq<Comment>
    var isWhatsAppEnabled: bool

    function State(): Form
      reads this
    {
      Form(newComment, comments, isWhatsAppEnabled)
    }

    constructor (initialComments: seq<Comment>)
      ensures State() == Form("", initialComments, true)
    {
      newComment := "";
      comments := initialComments;
      isWhatsAppEnabled := true;
    }

    /** The input box's change handler. */
    method SetNewComment(text: string)
      modifies this
      ensures State() == old(State()).(newComment := text)
    {
      newComment := text;
    }

    method HandleCommentSubmit(nowMillis: nat, today: string) returns (toast: Option<Toast>)
      modifies this
      ensures (State(), toast) == SubmitStep(old(State()), nowMillis, today)
    {
      if Trim(newComment) == "" {
        return None;
      }
      var comment := Comment("comment-" + NatToString(nowMillis), CurrentAuthor, today, newComment);
      comments := comments + [comment];
      newComment := "";
      toast := Some(SubmitToast(isWhatsAppEnabled));
    }

    method HandleWhatsAppToggle() returns (toast: Toast)
      modifies this
      ensures (State(), toast) == ToggleStep(old(State()))
    {
      toast := ToggleToast(isWhatsAppEnabled);
      isWhatsAppEnabled := !isWhatsAppEnabled;
    }
  }
}
