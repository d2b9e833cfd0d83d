/** The props-to-view decisions of the generic message bubble: whether it is
    an assistant bubble, whether it offers a delete control, what that
    control reports, and which caption it shows. */
module MessageView {
  import opened Chat

  /** The props a bubble is rendered with. `hasOnDelete` says whether the
      parent passed an `onDelete` callback. */
  datatype MessageProps = MessageProps(
    message: Message,
    index: Option<int>,
    labelText: Option<string>,
    hasOnDelete: bool)

  predicate IsAssistant(m: Message) {
    m.role == Assistant
  }

  /** `onDelete && index && Number.isInteger(index)`: a callback is given and
      the index is present and non-zero (every `int` is an integer). */
  predicate ShowDelete(p: MessageProps) {
    p.hasOnDelete && p.index.Some? && p.index.value != 0
  }

  /** The argument the delete control hands to `onDelete` when clicked, or
      None when the bubble has no delete control. */
  function DeleteClick(p: MessageProps): (r: Option<int>)
    ensures r.Some? <==> ShowDelete(p)
    ensures r.Some? ==> p.index == Some(r.value) && r.value != 0
  {
    if ShowDelete(p) then Some(p.index.value) else None
  }

  /** `label || message.role`: an empty label falls back to the role.
      (`label` is a Dafny keyword, hence the field name `labelText`.) */
  function Caption(p: MessageProps): (c: string)
    ensures |c| > 0
    ensures c == RoleName(p.message.role) || Some(c) == p.labelText
    ensures (p.labelText.Some? && p.labelText.value != "") ==> c == p.labelText.value
  {
    if p.labelText.Some? && p.labelText.value != "" then p.labelText.value
    else RoleName(p.message.role)
  }

  lemma CaptionWithoutLabel(p: MessageProps)
    requires p.labelText == None || p.labelText == Some("")
    ensures Caption(p) == RoleName(p.message.role)
  {
  }

  /** Without labels, two bubbles have the same caption exactly when their
      messages have the same role. */
  lemma UnlabelledCaptionsTellRolesApart(p: MessageProps, q: MessageProps)
    requires p.labelText == None && q.labelText == None
    ensures Caption(p) == Caption(q) <==> p.message.role == q.message.role
  {
    RoleNameInjective(p.message.role, q.message.role);
  }
}
