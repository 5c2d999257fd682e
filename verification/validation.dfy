/** The shape check for browser messages, `isValidClientMessage` (src/common/utils.ts:28-38). */
module Validation {

  import opened Wrappers
  import opened Json

  /** The message types the browser may send. */
  const ClientMessageTypes: seq<string> :=
    ["audio", "image", "image_start", "image_chunk", "image_end", "commit_audio", "interrupt", "text_message"]

  /**
   * A truthy, non-array object whose `type` is one of the known message types.
   * Arrays pass the `typeof` test but have no `type`, so they are rejected too.
   */
  predicate IsValidClientMessage(data: Option<Value>) {
    && Truthy(data)
    && (data.value.Arr? || data.value.Obj?)
    && exists i :: 0 <= i < |ClientMessageTypes| && Get(data.value, "type") == Some(Str(ClientMessageTypes[i]))
  }

  /** A message is valid exactly when it is an object with a known string type. */
  lemma ValidIff(data: Option<Value>)
    ensures IsValidClientMessage(data) <==>
      data.Some? && data.value.Obj? && TypeOf(data.value).Some? && TypeOf(data.value).value.Str?
      && TypeOf(data.value).value.s in ClientMessageTypes
  {
    if data.Some? && data.value.Obj? && TypeOf(data.value).Some? && TypeOf(data.value).value.Str? {
      var t := TypeOf(data.value).value.s;
      if t in ClientMessageTypes {
        var i :| 0 <= i < |ClientMessageTypes| && ClientMessageTypes[i] == t;
        assert Get(data.value, "type") == Some(Str(ClientMessageTypes[i]));
      }
    }
  }

  /** Primitives, `null` and `undefined` are never valid. */
  lemma PrimitivesInvalid(data: Option<Value>)
    requires data.None? || !(data.value.Arr? || data.value.Obj?)
    ensures !IsValidClientMessage(data)
  {
  }
}
