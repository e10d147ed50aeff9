/**
 * Reference readings of one shell word made of quoted pieces, the way a
 * POSIX shell (sh, bash, zsh) and the fish shell remove quotes. They are the
 * yardstick the emitted `cd` command is measured against.
 *
 * Both readings cover only what quoting needs: outside quotes they accept a
 * single or double quote and nothing else, and inside double quotes they give
 * up on expansions (`$`, and the backquote in POSIX shells). Wherever a
 * reading returns `Some(w)`, `w` is the word the shell would pass on.
 */
module Shell {
  import opened Base

  datatype Mode = Outside | InSingle | InDouble

  /** Quote removal by a POSIX shell, from `mode`, with `acc` read so far. */
  function PosixRead(mode: Mode, s: string, acc: string): Option<string>
    decreases |s|
  {
    if s == [] then (if mode == Outside then Some(acc) else None)
    else
      var c := s[0];
      match mode
      case Outside =>
        if c == '\'' then PosixRead(InSingle, s[1..], acc)
        else if c == '"' then PosixRead(InDouble, s[1..], acc)
        else None
      case InSingle =>
        // Inside single quotes every character but the closing quote is literal.
        if c == '\'' then PosixRead(Outside, s[1..], acc)
        else PosixRead(InSingle, s[1..], acc + [c])
      case InDouble =>
        if c == '"' then PosixRead(Outside, s[1..], acc)
        else if c == '$' || c == '`' then None
        else if c == '\\' && |s| >= 2 && s[1] == '\n' then PosixRead(InDouble, s[2..], acc)
        else if c == '\\' && |s| >= 2 && (s[1] == '$' || s[1] == '`' || s[1] == '"' || s[1] == '\\') then
          PosixRead(InDouble, s[2..], acc + [s[1]])
        else PosixRead(InDouble, s[1..], acc + [c])
  }

  /** Quote removal by fish, from `mode`, with `acc` read so far. */
  function FishRead(mode: Mode, s: string, acc: string): Option<string>
    decreases |s|
  {
    if s == [] then (if mode == Outside then Some(acc) else None)
    else
      var c := s[0];
      match mode
      case Outside =>
        if c == '\'' then FishRead(InSingle, s[1..], acc)
        else if c == '"' then FishRead(InDouble, s[1..], acc)
        else None
      case InSingle =>
        // Inside single quotes fish still reads `\\` and `\'` as escapes.
        if c == '\'' then FishRead(Outside, s[1..], acc)
        else if c == '\\' && |s| >= 2 && (s[1] == '\\' || s[1] == '\'') then FishRead(InSingle, s[2..], acc + [s[1]])
        else FishRead(InSingle, s[1..], acc + [c])
      case InDouble =>
        if c == '"' then FishRead(Outside, s[1..], acc)
        else if c == '$' then None
        else if c == '\\' && |s| >= 2 && s[1] == '\n' then FishRead(InDouble, s[2..], acc)
        else if c == '\\' && |s| >= 2 && (s[1] == '"' || s[1] == '$' || s[1] == '\\') then
          FishRead(InDouble, s[2..], acc + [s[1]])
        else FishRead(InDouble, s[1..], acc + [c])
  }

  /** The word a POSIX shell makes of `s`. */
  function PosixWord(s: string): Option<string> {
    PosixRead(Outside, s, "")
  }

  /** The word fish makes of `s`. */
  function FishWord(s: string): Option<string> {
    FishRead(Outside, s, "")
  }
}
