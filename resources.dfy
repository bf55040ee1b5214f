/** Text shown by the UI: either a literal string or an Android string resource by name. */
module Resources {
  datatype Text = Plain(value: string) | StringRes(name: string)

  const Empty: Text := Plain("")
}
