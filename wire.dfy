/**
 * The JSON messages the backend sends to the browser over the session's
 * WebSocket, and the socket itself as the list of messages sent so far.
 */
module Wire {

  /** One outbound message, by its `type` field. `tts_done` also carries a
      wall-clock total, which is not modelled. */
  datatype Outbound =
    | TtsStart                  // {"type": "tts_start"}
    | LlmChunk(text: string)    // {"type": "llm_chunk", "text": ...}
    | SearchStart               // {"type": "search_start"}
    | SearchAudioDone           // {"type": "search_audio_done"}
    | LlmDone                   // {"type": "llm_done"}
    | TtsDone                   // {"type": "tts_done", "total_time": ...}
    | FinalTranscript(text: string)
    | Transcript(text: string)
    | StopAudio

  /** The browser WebSocket: `send_text` appends to `sent`. */
  class Channel {
    var sent: seq<Outbound>

    constructor ()
      ensures sent == []
    {
      sent := [];
    }

    method Send(m: Outbound)
      modifies this
      ensures sent == old(sent) + [m]
    {
      sent := sent + [m];
    }
  }
}
