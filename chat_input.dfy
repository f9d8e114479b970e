/**
 * The stateless input form (frontend/src/components/Chat/ChatInput.jsx): a
 * text field whose changes are forwarded raw to the parent's setter, a submit
 * that is the parent's handler, and a send button whose `disabled` attribute
 * is the one piece of logic here.
 */
module ChatInput {
  import opened JsString

  /**
   * `disabled={loading || userInput.trim() === ''}`: the button is disabled
   * exactly while a reply is awaited or when the input holds nothing but
   * white space.
   */
  function SendDisabled(userInput: string, loading: bool): (disabled: bool)
    ensures disabled <==> loading || IsBlank(userInput)
  {
    loading || Trim(userInput) == ""
  }
}
