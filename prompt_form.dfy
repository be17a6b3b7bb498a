/** animegen/components/PromptForm.tsx: the prompt text box and its submit
    button. A submit always cancels the browser's default form action, and
    asks for an image only when the prompt has a non-blank character and no
    generation is running; the button is disabled in exactly the other cases. */
module PromptForm {
  import opened Wrappers
  import opened JsString

  /** `prompt.trim() && !isLoading`: whether a submit calls onGenerate. */
  function ShouldGenerate(prompt: string, isLoading: bool): (go: bool)
    ensures go <==> !isLoading && exists i :: 0 <= i < |prompt| && !IsJsWhiteSpace(prompt[i])
  {
    TrimEmptyIff(prompt);
    Trim(prompt) != [] && !isLoading
  }

  /** `disabled={isLoading || !prompt.trim()}` on the submit button. */
  function SubmitDisabled(prompt: string, isLoading: bool): bool {
    isLoading || Trim(prompt) == []
  }

  /** The button is disabled exactly when submitting would not generate. */
  lemma SubmitDisabledIffNoGenerate(prompt: string, isLoading: bool)
    ensures SubmitDisabled(prompt, isLoading) <==> !ShouldGenerate(prompt, isLoading)
  {
  }

  /** What one submit does: the default action is always prevented, and the
      prompt handed to onGenerate, if any, is the untrimmed text. */
  datatype SubmitEffect = SubmitEffect(preventedDefault: bool, generate: Option<string>)

  class Form {
    var prompt: string

    /** `useState(initialPrompt)`. */
    constructor (initialPrompt: string)
      ensures prompt == initialPrompt
    {
      prompt := initialPrompt;
    }

    /** The textarea's onChange: the new text replaces the prompt wholesale. */
    method OnChange(value: string)
      modifies this
      ensures prompt == value
    {
      prompt := value;
    }

    /** `disabled={isLoading}` on the textarea. */
    function TextareaDisabled(isLoading: bool): (d: bool)
      ensures d == isLoading
    {
      isLoading
    }

    /** handleSubmit. */
    method HandleSubmit(isLoading: bool) returns (effect: SubmitEffect)
      ensures effect.preventedDefault
      ensures effect.generate.Some? <==> ShouldGenerate(prompt, isLoading)
      ensures effect.generate.Some? ==> effect.generate.value == prompt
      ensures effect.generate.None? <==> SubmitDisabled(prompt, isLoading)
    {
      var generate := None;
      if Trim(prompt) != [] && !isLoading {
        generate := Some(prompt);
      }
      effect := SubmitEffect(true, generate);
    }
  }
}
