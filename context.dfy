/** The two conversation serialisers of main_1.py: the transcript that
    `chat_with_gemini` puts into its prompt and the context that
    `follow_up_incident` puts into its prompt. Both are strings grown line
    by line, every line ended by a newline. */
module PromptContext {
  import opened PyStrings

  /** One entry of the chat request's `history`: `{"sender": ..., "text": ...}`. */
  datatype ChatTurn = ChatTurn(sender: string, text: string)

  /** One entry of the follow-up request's `conversation`: `{"user": ..., "ai": ...}`. */
  datatype Exchange = Exchange(user: string, ai: string)

  /** How many of the most recent history entries the chat transcript keeps. */
  const HistoryWindow: nat := 6

  /** Every line followed by a newline, in order. */
  function JoinLines(lines: seq<string>): string {
    if lines == [] then "" else lines[0] + "\n" + JoinLines(lines[1..])
  }

  lemma {:induction false} JoinLinesAppend(lines: seq<string>, line: string)
    ensures JoinLines(lines + [line]) == JoinLines(lines) + line + "\n"
    decreases |lines|
  {
    if lines == [] {
      assert lines + [line] == [line];
      assert [line][1..] == [];
    } else {
      assert (lines + [line])[1..] == lines[1..] + [line];
      JoinLinesAppend(lines[1..], line);
    }
  }

  /** Splitting newline-terminated lines at the newlines gives the lines back,
      followed by the empty piece after the last newline. */
  lemma {:induction false} SplitJoinLines(lines: seq<string>)
    requires NoNewlines(lines)
    ensures Split(JoinLines(lines), '\n') == lines + [""]
    decreases |lines|
  {
    if lines != [] {
      SplitJoinLines(lines[1..]);
      SplitAround(lines[0], '\n', JoinLines(lines[1..]));
      SplitNoSeparator(lines[0], '\n');
      assert [lines[0]] + (lines[1..] + [""]) == lines + [""];
    }
  }

  /** `history[-6:]`: the last six entries, or all of them when there are fewer. */
  function RecentTurns(history: seq<ChatTurn>): (r: seq<ChatTurn>)
    ensures |r| == if |history| < HistoryWindow then |history| else HistoryWindow
    ensures r == history[|history| - |r|..]
  {
    if |history| <= HistoryWindow then history else history[|history| - HistoryWindow..]
  }

  /** One transcript line: the capitalised sender, a colon, the text. */
  function ChatLine(turn: ChatTurn): string {
    Capitalize(turn.sender) + ": " + turn.text
  }

  function ChatLines(turns: seq<ChatTurn>): (r: seq<string>)
    ensures |r| == |turns|
    ensures forall i :: 0 <= i < |turns| ==> r[i] == ChatLine(turns[i])
  {
    seq(|turns|, i requires 0 <= i < |turns| => ChatLine(turns[i]))
  }

  /** The transcript of main_1.py's `chat_with_gemini`: one line per recent
      history entry, then the new message as a "User:" line. */
  function ChatTranscript(history: seq<ChatTurn>, message: string): string {
    JoinLines(ChatLines(RecentTurns(history)) + ["User: " + message])
  }

  /** The loop of main_1.py lines 371-374. */
  method BuildChatTranscript(history: seq<ChatTurn>, message: string) returns (context: string)
    ensures context == ChatTranscript(history, message)
  {
    var recent := RecentTurns(history);
    context := "";
    for i := 0 to |recent|
      invariant context == JoinLines(ChatLines(recent[..i]))
    {
      ChatStep(recent, i);
      context := context + ChatLine(recent[i]) + "\n";
    }
    ChatLast(recent, message);
    context := context + "User: " + message + "\n";
  }

  lemma ChatLinesExtend(turns: seq<ChatTurn>, i: nat)
    requires i < |turns|
    ensures ChatLines(turns[..i + 1]) == ChatLines(turns[..i]) + [ChatLine(turns[i])]
  {
    assert turns[..i + 1][..i] == turns[..i];
  }

  /** One turn of the transcript loop appends that turn's line. */
  lemma ChatStep(recent: seq<ChatTurn>, i: nat)
    requires i < |recent|
    ensures JoinLines(ChatLines(recent[..i + 1])) == JoinLines(ChatLines(recent[..i])) + ChatLine(recent[i]) + "\n"
  {
    ChatLinesExtend(recent, i);
    JoinLinesAppend(ChatLines(recent[..i]), ChatLine(recent[i]));
  }

  /** After the loop, the "User:" line closes the transcript. */
  lemma ChatLast(recent: seq<ChatTurn>, message: string)
    ensures JoinLines(ChatLines(recent) + ["User: " + message])
         == JoinLines(ChatLines(recent[..|recent|])) + "User: " + message + "\n"
  {
    assert recent[..|recent|] == recent;
    JoinLinesAppend(ChatLines(recent), "User: " + message);
  }

  /** Capitalising never introduces a newline. */
  lemma CapitalizeNoNewline(s: string)
    requires '\n' !in s
    ensures '\n' !in Capitalize(s)
  {
    var c := Capitalize(s);
    forall i | 0 <= i < |c| ensures c[i] != '\n' {
      assert s[i] != '\n';
    }
  }

  /** When no sender, text or message holds a newline, the transcript reads
      back as exactly the last min(6, |history|) entries, in their original
      order, then the "User:" line of the new message. */
  lemma TranscriptLines(history: seq<ChatTurn>, message: string)
    requires forall i :: 0 <= i < |history| ==> '\n' !in history[i].sender && '\n' !in history[i].text
    requires '\n' !in message
    ensures Split(ChatTranscript(history, message), '\n')
         == ChatLines(RecentTurns(history)) + ["User: " + message, ""]
  {
    var recent := RecentTurns(history);
    var lines := ChatLines(recent) + ["User: " + message];
    forall i | 0 <= i < |lines| ensures '\n' !in lines[i] {
      if i < |recent| {
        assert recent[i] == history[|history| - |recent| + i];
        CapitalizeNoNewline(recent[i].sender);
      }
    }
    SplitJoinLines(lines);
    assert lines + [""] == ChatLines(recent) + ["User: " + message, ""];
  }

  /** Entries older than the last six never reach the transcript. */
  lemma OlderTurnsIgnored(older: seq<ChatTurn>, history: seq<ChatTurn>, message: string)
    requires |history| >= HistoryWindow
    ensures ChatTranscript(older + history, message) == ChatTranscript(history, message)
  {
    assert RecentTurns(older + history) == RecentTurns(history);
  }

  /** The lines "User: u" and "AI: a" of every exchange, in order. */
  function ExchangeLines(conversation: seq<Exchange>): (r: seq<string>)
    ensures |r| == 2 * |conversation|
  {
    if conversation == [] then []
    else
      var last := conversation[|conversation| - 1];
      ExchangeLines(conversation[..|conversation| - 1]) + ["User: " + last.user, "AI: " + last.ai]
  }

  /** Exchange k becomes lines 2k ("User: ...") and 2k+1 ("AI: ..."). */
  lemma {:induction false} ExchangeLinesAt(conversation: seq<Exchange>, k: nat)
    requires k < |conversation|
    ensures ExchangeLines(conversation)[2 * k] == "User: " + conversation[k].user
    ensures ExchangeLines(conversation)[2 * k + 1] == "AI: " + conversation[k].ai
    decreases |conversation|
  {
    var n := |conversation| - 1;
    if k < n {
      ExchangeLinesAt(conversation[..n], k);
      assert conversation[..n][k] == conversation[k];
    }
  }

  lemma {:induction false} ExchangeLinesNoNewlines(conversation: seq<Exchange>)
    requires forall i :: 0 <= i < |conversation| ==> '\n' !in conversation[i].user && '\n' !in conversation[i].ai
    ensures NoNewlines(ExchangeLines(conversation))
    decreases |conversation|
  {
    if conversation != [] {
      var n := |conversation| - 1;
      ExchangeLinesNoNewlines(conversation[..n]);
      var last := conversation[n];
      assert '\n' !in "User: " + last.user;
      assert '\n' !in "AI: " + last.ai;
    }
  }

  /** The context of main_1.py's `follow_up_incident`: the incident text,
      every earlier exchange, then the follow-up question. */
  function FollowUpContext(incidentText: string, conversation: seq<Exchange>, followUp: string): string {
    JoinLines([incidentText] + ExchangeLines(conversation) + ["User follow-up: " + followUp])
  }

  /** The loop of main_1.py lines 340-343. */
  method BuildFollowUpContext(incidentText: string, conversation: seq<Exchange>, followUp: string)
    returns (context: string)
    ensures context == FollowUpContext(incidentText, conversation, followUp)
  {
    context := incidentText + "\n";
    assert JoinLines([incidentText]) == incidentText + "\n" by {
      assert [incidentText][1..] == [];
    }
    for i := 0 to |conversation|
      invariant context == JoinLines([incidentText] + ExchangeLines(conversation[..i]))
    {
      var turn := conversation[i];
      FollowUpStep(incidentText, conversation, i);
      context := context + "User: " + turn.user + "\nAI: " + turn.ai + "\n";
    }
    FollowUpLast(incidentText, conversation, followUp);
    context := context + "User follow-up: " + followUp + "\n";
  }

  /** One exchange of the context loop appends its "User:" and "AI:" lines. */
  lemma FollowUpStep(incidentText: string, conversation: seq<Exchange>, i: nat)
    requires i < |conversation|
    ensures JoinLines([incidentText] + ExchangeLines(conversation[..i + 1]))
         == JoinLines([incidentText] + ExchangeLines(conversation[..i]))
            + "User: " + conversation[i].user + "\nAI: " + conversation[i].ai + "\n"
  {
    var turn := conversation[i];
    var before := [incidentText] + ExchangeLines(conversation[..i]);
    assert conversation[..i + 1][..i] == conversation[..i];
    assert [incidentText] + ExchangeLines(conversation[..i + 1])
        == before + ["User: " + turn.user] + ["AI: " + turn.ai];
    JoinLinesAppend(before, "User: " + turn.user);
    JoinLinesAppend(before + ["User: " + turn.user], "AI: " + turn.ai);
  }

  /** After the loop, the "User follow-up:" line closes the context. */
  lemma FollowUpLast(incidentText: string, conversation: seq<Exchange>, followUp: string)
    ensures FollowUpContext(incidentText, conversation, followUp)
         == JoinLines([incidentText] + ExchangeLines(conversation[..|conversation|])) + "User follow-up: " + followUp + "\n"
  {
    assert conversation[..|conversation|] == conversation;
    JoinLinesAppend([incidentText] + ExchangeLines(conversation), "User follow-up: " + followUp);
  }

  lemma {:induction false} SplitFramedLines(first: string, middle: seq<string>, final: string)
    requires '\n' !in first && '\n' !in final && NoNewlines(middle)
    ensures Split(JoinLines([first] + middle + [final]), '\n') == [first] + middle + [final, ""]
  {
    var lines := [first] + middle + [final];
    assert NoNewlines(lines) by {
      forall i | 0 <= i < |lines| ensures '\n' !in lines[i] {
        if 0 < i <= |middle| {
          assert lines[i] == middle[i - 1];
        }
      }
    }
    SplitJoinLines(lines);
    assert lines + [""] == [first] + middle + [final, ""];
  }

  /** When none of the pieces holds a newline, the follow-up context reads
      back as the incident text, then "User:"/"AI:" per exchange in order,
      then the "User follow-up:" line. */
  lemma FollowUpLines(incidentText: string, conversation: seq<Exchange>, followUp: string)
    requires '\n' !in incidentText && '\n' !in followUp
    requires forall i :: 0 <= i < |conversation| ==> '\n' !in conversation[i].user && '\n' !in conversation[i].ai
    ensures Split(FollowUpContext(incidentText, conversation, followUp), '\n')
         == [incidentText] + ExchangeLines(conversation) + ["User follow-up: " + followUp, ""]
  {
    ExchangeLinesNoNewlines(conversation);
    SplitQuestionLines(incidentText, ExchangeLines(conversation), followUp);
  }

  lemma SplitQuestionLines(first: string, middle: seq<string>, followUp: string)
    requires '\n' !in first && '\n' !in followUp && NoNewlines(middle)
    ensures Split(JoinLines([first] + middle + ["User follow-up: " + followUp]), '\n')
         == [first] + middle + ["User follow-up: " + followUp, ""]
  {
    NoNewlineConcat("User follow-up: ", followUp);
    SplitFramedLines(first, middle, "User follow-up: " + followUp);
  }
}
