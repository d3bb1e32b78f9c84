/** Short tags derived from tool names (src/client/services/tool-tags.ts). */
module ToolTags {
  import opened Optional
  import opened SessionEvents
  import Text

  datatype Tag =
    | Read | Listing | Search | Git | RunTag | Fs | Http | Container | Shell
    | Edit | Create | Agent | Web | Query | IntentTag | Question | GitHub | GenericTool

  predicate IsWordChar(c: char) {
    ('a' <= c <= 'z') || ('A' <= c <= 'Z') || ('0' <= c <= '9') || c == '_'
  }

  /** The command begins with this word, up to a word boundary. */
  predicate BeginsWith(cmd: string, word: string) {
    word <= cmd && (|cmd| == |word| || !IsWordChar(cmd[|word|]))
  }

  predicate BeginsWithAny(cmd: string, words: seq<string>) {
    exists k :: 0 <= k < |words| && BeginsWith(cmd, words[k])
  }

  function BashTag(command: string): Tag {
    var cmd := Text.TrimStart(command);
    if BeginsWithAny(cmd, ["cat", "head", "tail", "less", "bat"]) then Read
    else if BeginsWithAny(cmd, ["ls", "find", "tree", "du"]) then Listing
    else if BeginsWithAny(cmd, ["grep", "rg", "ag", "ack"]) then Search
    else if BeginsWithAny(cmd, ["git"]) then Git
    else if BeginsWithAny(cmd, ["npm", "yarn", "pnpm", "npx", "pip", "cargo", "go"]) then RunTag
    else if BeginsWithAny(cmd, ["mkdir", "cp", "mv", "rm", "touch", "chmod"]) then Fs
    else if BeginsWithAny(cmd, ["curl", "wget", "fetch"]) then Http
    else if BeginsWithAny(cmd, ["docker", "podman"]) then Container
    else Shell
  }

  function Arg(args: Option<Args>, key: string): Option<string> {
    if args.Some? && key in args.value then Some(args.value[key]) else None
  }

  /** Only the `task` tool is tagged as an agent container. */
  function ToolTag(toolName: string, args: Option<Args>): (tag: Tag)
    ensures tag == Agent <==> toolName == "task"
  {
    if toolName == "bash" then BashTag(Arg(args, "command").GetOr(""))
    else if toolName == "view" then Read
    else if toolName == "edit" then Edit
    else if toolName == "create" then Create
    else if toolName == "grep" || toolName == "glob" then Search
    else if toolName == "task" then Agent
    else if toolName == "web_search" || toolName == "web_fetch" then Web
    else if toolName == "sql" then Query
    else if toolName == "report_intent" then IntentTag
    else if toolName == "ask_user" then Question
    else if "github-mcp-server-" <= toolName then GitHub
    else GenericTool
  }

  // ---- the tags as tables ----

  predicate IsLetter(c: char) {
    'a' <= c <= 'z' || 'A' <= c <= 'Z' || '0' <= c <= '9' || c == '_'
  }

  /** The letters, digits and `_` that a command begins with. */
  function FirstWord(cmd: string): string {
    if cmd == "" || !IsLetter(cmd[0]) then "" else [cmd[0]] + FirstWord(cmd[1..])
  }

  function CommandTag(word: string): Tag {
    match word
    case "cat" => Read
    case "head" => Read
    case "tail" => Read
    case "less" => Read
    case "bat" => Read
    case "ls" => Listing
    case "find" => Listing
    case "tree" => Listing
    case "du" => Listing
    case "grep" => Search
    case "rg" => Search
    case "ag" => Search
    case "ack" => Search
    case "git" => Git
    case "npm" => RunTag
    case "yarn" => RunTag
    case "pnpm" => RunTag
    case "npx" => RunTag
    case "pip" => RunTag
    case "cargo" => RunTag
    case "go" => RunTag
    case "mkdir" => Fs
    case "cp" => Fs
    case "mv" => Fs
    case "rm" => Fs
    case "touch" => Fs
    case "chmod" => Fs
    case "curl" => Http
    case "wget" => Http
    case "fetch" => Http
    case "docker" => Container
    case "podman" => Container
    case _ => Shell
  }

  ghost predicate IsWord(word: string) {
    word != "" && forall i :: 0 <= i < |word| ==> IsLetter(word[i])
  }

  /** A command begins with a word, up to a word boundary, exactly when that is its first word. */
  lemma {:induction false} BeginsWithFirstWord(cmd: string, word: string)
    requires forall i :: 0 <= i < |word| ==> IsLetter(word[i])
    ensures BeginsWith(cmd, word) <==> FirstWord(cmd) == word
    decreases |cmd|
  {
    if cmd != "" && word != "" && cmd[0] == word[0] {
      BeginsWithFirstWord(cmd[1..], word[1..]);
      assert word <= cmd <==> word[1..] <= cmd[1..];
    }
  }

  lemma BeginsWithAnyIs(cmd: string, words: seq<string>)
    requires forall k :: 0 <= k < |words| ==> IsWord(words[k])
    ensures BeginsWithAny(cmd, words) <==> FirstWord(cmd) in words
  {
    forall k | 0 <= k < |words|
      ensures BeginsWith(cmd, words[k]) <==> FirstWord(cmd) == words[k]
    {
      assert IsWord(words[k]);
      BeginsWithFirstWord(cmd, words[k]);
    }
  }

  lemma CommandLists(cmd: string, word: string)
    requires word == FirstWord(cmd)
    ensures BeginsWithAny(cmd, ["cat", "head", "tail", "less", "bat"]) <==>
            word in ["cat", "head", "tail", "less", "bat"]
    ensures BeginsWithAny(cmd, ["ls", "find", "tree", "du"]) <==> word in ["ls", "find", "tree", "du"]
    ensures BeginsWithAny(cmd, ["grep", "rg", "ag", "ack"]) <==> word in ["grep", "rg", "ag", "ack"]
    ensures BeginsWithAny(cmd, ["git"]) <==> word in ["git"]
  {
    BeginsWithAnyIs(cmd, ["cat", "head", "tail", "less", "bat"]);
    BeginsWithAnyIs(cmd, ["ls", "find", "tree", "du"]);
    BeginsWithAnyIs(cmd, ["grep", "rg", "ag", "ack"]);
    BeginsWithAnyIs(cmd, ["git"]);
  }

  lemma MoreCommandLists(cmd: string, word: string)
    requires word == FirstWord(cmd)
    ensures BeginsWithAny(cmd, ["npm", "yarn", "pnpm", "npx", "pip", "cargo", "go"]) <==>
            word in ["npm", "yarn", "pnpm", "npx", "pip", "cargo", "go"]
    ensures BeginsWithAny(cmd, ["mkdir", "cp", "mv", "rm", "touch", "chmod"]) <==>
            word in ["mkdir", "cp", "mv", "rm", "touch", "chmod"]
    ensures BeginsWithAny(cmd, ["curl", "wget", "fetch"]) <==> word in ["curl", "wget", "fetch"]
    ensures BeginsWithAny(cmd, ["docker", "podman"]) <==> word in ["docker", "podman"]
  {
    BeginsWithAnyIs(cmd, ["npm", "yarn", "pnpm", "npx", "pip", "cargo", "go"]);
    BeginsWithAnyIs(cmd, ["mkdir", "cp", "mv", "rm", "touch", "chmod"]);
    BeginsWithAnyIs(cmd, ["curl", "wget", "fetch"]);
    BeginsWithAnyIs(cmd, ["docker", "podman"]);
  }

  /** The tag of a command is decided by its first word alone. */
  lemma BashTagIs(command: string)
    ensures BashTag(command) == CommandTag(FirstWord(Text.TrimStart(command)))
  {
    var cmd := Text.TrimStart(command);
    CommandLists(cmd, FirstWord(cmd));
    MoreCommandLists(cmd, FirstWord(cmd));
  }

  /** The tag of a tool, by its name and, for `bash`, the first word of its command. */
  lemma ToolTagIs(toolName: string, args: Option<Args>)
    ensures ToolTag(toolName, args) ==
            match toolName
            case "bash" =>
              if args.Some? && "command" in args.value then
                CommandTag(FirstWord(Text.TrimStart(args.value["command"])))
              else Shell
            case "view" => Read
            case "edit" => Edit
            case "create" => Create
            case "grep" => Search
            case "glob" => Search
            case "task" => Agent
            case "web_search" => Web
            case "web_fetch" => Web
            case "sql" => Query
            case "report_intent" => IntentTag
            case "ask_user" => Question
            case _ => if |toolName| >= 18 && toolName[..18] == "github-mcp-server-" then GitHub else GenericTool
  {
    BashTagIs("");
    if args.Some? && "command" in args.value { BashTagIs(args.value["command"]); }
  }
}
