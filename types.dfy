/** The enumerations of types.ts and the session length of App.tsx. */
module Types {
  /** The five lifecycle states the screen renders (types.ts:9-15). */
  datatype Status = Idle | Connecting | Active | Error | Finished

  /** The visual theme; `Default` is the starting theme, which no tool call can select (types.ts:2). */
  datatype Atmosphere = Default | Sunny | Night | Party | Underwater

  /** Length of one conversation, in seconds (App.tsx:10). */
  const SessionDurationSeconds: nat := 60
}
