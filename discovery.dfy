/**
 * What both discovery adapters produce: one session of an assistant
 * front-end, found on disk, with the paths needed to read it later.
 */
module Discovery {

  /** Which front-end a session comes from. */
  datatype SourceType = ClaudeCodeSource | ClaudeDesktopSource

  /** The source tag as written into notes and the watermark. */
  function SourceName(source: SourceType): (r: string)
    ensures r == "claude-code" <==> source == ClaudeCodeSource
    ensures r == "claude-desktop" <==> source == ClaudeDesktopSource
  {
    match source
    case ClaudeCodeSource => "claude-code"
    case ClaudeDesktopSource => "claude-desktop"
  }

  datatype DiscoveredSession = DiscoveredSession(
    id: string,
    source: SourceType,
    title: string,
    model: string,
    createdAt: int,
    lastActivityAt: int,
    cwd: string,
    userPaths: seq<string>,
    domain: string,
    project: string,
    transcriptPath: string,
    subagentPaths: seq<string>)
}
