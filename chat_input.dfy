/**
 * The prompt box (src/components/chat/chat-input.tsx). It can be controlled
 * (the caller passes `value`, `isLoading` and handlers) or uncontrolled (it keeps
 * its own value and a loading flag that a two-second timer clears).
 */
module ChatInput {
  import opened Wrappers

  /** The props that decide behaviour; absent optional props are `None` / `false`. */
  datatype InputProps = InputProps(
    value: Option<string>,
    isLoading: Option<bool>,
    hasOnValueChange: bool,
    hasOnSubmit: bool,
    disabled: bool)

  /** `value ?? internalValue` */
  function InputValue(props: InputProps, internalValue: string): (r: string)
    ensures props.value.Some? ==> r == props.value.value
    ensures props.value.None? ==> r == internalValue
  {
    props.value.GetOr(internalValue)
  }

  /** `isLoading ?? internalLoading` */
  function LoadingValue(props: InputProps, internalLoading: bool): (r: bool)
    ensures props.isLoading.Some? ==> r == props.isLoading.value
    ensures props.isLoading.None? ==> r == internalLoading
  {
    props.isLoading.GetOr(internalLoading)
  }

  /** The send button's tooltip. */
  function Tooltip(loading: bool): (r: string)
    ensures r == "Stop generation" <==> loading
    ensures r == "Send message" <==> !loading
  {
    if loading then "Stop generation" else "Send message"
  }

  /** What a submit does. */
  datatype SubmitEffect = Ignored | CalledOnSubmit | StartedLoading

  function SubmitOutcome(props: InputProps, internalLoading: bool): (r: SubmitEffect)
    ensures r == Ignored <==> props.disabled || LoadingValue(props, internalLoading)
    ensures r == CalledOnSubmit <==> !props.disabled && !LoadingValue(props, internalLoading) && props.hasOnSubmit
  {
    if props.disabled || LoadingValue(props, internalLoading) then Ignored
    else if props.hasOnSubmit then CalledOnSubmit
    else StartedLoading
  }

  /** The component's internal state. */
  class PromptInputBasic {
    var internalValue: string
    var internalLoading: bool

    constructor ()
      ensures internalValue == "" && !internalLoading
    {
      internalValue, internalLoading := "", false;
    }

    /** `handleSubmit`: ignored when disabled or loading; calls `onSubmit` once if given, else starts internal loading. */
    method HandleSubmit(props: InputProps) returns (effect: SubmitEffect)
      modifies this
      ensures effect == SubmitOutcome(props, old(internalLoading))
      ensures internalValue == old(internalValue)
      ensures internalLoading == (old(internalLoading) || effect == StartedLoading)
    {
      if props.disabled || LoadingValue(props, internalLoading) {
        return Ignored;
      }
      if props.hasOnSubmit {
        return CalledOnSubmit;
      }
      internalLoading := true;
      effect := StartedLoading;
    }

    /** The timer started by an uncontrolled submit: loading ends and the value is cleared. */
    method FinishLoading()
      modifies this
      ensures !internalLoading && internalValue == ""
    {
      internalLoading := false;
      internalValue := "";
    }

    /** `handleValueChange`: forwarded to `onValueChange` if given; otherwise kept internally. */
    method HandleValueChange(props: InputProps, nextValue: string) returns (forwarded: Option<string>)
      modifies this
      ensures forwarded == (if props.hasOnValueChange then Some(nextValue) else None)
      ensures internalValue == (if props.hasOnValueChange then old(internalValue) else nextValue)
      ensures internalLoading == old(internalLoading)
    {
      forwarded := None;
      if props.hasOnValueChange {
        forwarded := Some(nextValue);
      }
      if !props.hasOnValueChange {
        internalValue := nextValue;
      }
    }
  }

  /** An uncontrolled box shows what was typed; a submit starts its own loading, a second submit while loading is ignored, and the button then offers to stop. */
  lemma UncontrolledRoundTrip(props: InputProps, typed: string)
    requires props.value.None? && props.isLoading.None? && !props.hasOnSubmit && !props.hasOnValueChange && !props.disabled
    ensures InputValue(props, typed) == typed
    ensures SubmitOutcome(props, false) == StartedLoading
    ensures SubmitOutcome(props, true) == Ignored
    ensures Tooltip(LoadingValue(props, true)) == "Stop generation"
  {
  }
}
