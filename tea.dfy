/// The Bubble Tea side of both browsers: the messages a program receives,
/// a key as the library reports it, and what a program does after a message.
module Tea {
  import opened Wrappers

  /** A key as Bubble Tea reports it: typed runes, or a named key; either may
      carry the alt modifier. */
  datatype Key = Runes(runes: string, alt: bool) | Special(name: string, alt: bool)

  /** The key's String(), which key.Matches compares with each binding. */
  function KeyString(k: Key): string
  {
    var s := if k.Runes? then k.runes else k.name;
    if k.alt then "alt+" + s else s
  }

  /** The messages the program receives: a new window size, a key, or
      anything else (ignored). */
  datatype Msg = WindowSize(width: nat, height: nat) | KeyPress(key: Key) | OtherMsg

  /** What the program does after a message: keep running, quit (printing the
      shell command, if any, for the caller to run), or panic. */
  datatype Outcome = Continue | Quit(command: Option<string>) | Crash
}
