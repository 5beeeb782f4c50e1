/** `RecordingControls` of src/components/recording/recording-controls.tsx: which
    buttons the recorder shows in each state. */
module RecordingControls {
  import opened Types

  datatype Control = StartButton | PauseButton | ResumeButton | StopButton | DiscardButton

  /** The buttons rendered, left to right. */
  function Controls(state: RecorderState): (cs: seq<Control>)
    ensures |cs| <= 3
  {
    if state == PREVIEWING then [StartButton]
    else if state == RECORDING then [PauseButton, StopButton, DiscardButton]
    else if state == PAUSED then [ResumeButton, StopButton, DiscardButton]
    else []
  }

  /** Each button appears in exactly the states whose handler it calls. */
  lemma ControlsShown(state: RecorderState)
    ensures StartButton in Controls(state) <==> state == PREVIEWING
    ensures PauseButton in Controls(state) <==> state == RECORDING
    ensures ResumeButton in Controls(state) <==> state == PAUSED
    ensures StopButton in Controls(state) <==> state == RECORDING || state == PAUSED
    ensures DiscardButton in Controls(state) <==> state == RECORDING || state == PAUSED
    ensures Controls(state) == [] <==> state !in {PREVIEWING, RECORDING, PAUSED}
  {
  }

  /** Pause and Resume share one slot: never both at once, and it comes first. */
  lemma PauseResumeSlot(state: RecorderState)
    requires state == RECORDING || state == PAUSED
    ensures Controls(state)[0] == (if state == RECORDING then PauseButton else ResumeButton)
    ensures Controls(state)[1..] == [StopButton, DiscardButton]
  {
  }
}
