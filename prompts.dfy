/**
 * The user-message templates of the three agents, transcribed split around
 * their placeholders, and the prompts the chat handlers build from them. Each
 * prompt function proves that it equals what `str.format` makes of the
 * template with the request's fields.
 */
module Prompts {
  import opened Common
  import opened PyFormat

  /**
   * A piece of literal template text. The template text is kept in pieces of
   * a few dozen characters each, so that the verifier can check every piece
   * for braces on its own.
   */
  function Literal(text: string): (piece: string)
    requires NoBraces(text)
    ensures NoBraces(piece) && piece == text
  {
    text
  }

  // RAG_USER_TEMPLATE, around {history} and {last_user_msg}
  const RagHistoryOpen: string := Literal("\n<conversation_history>\n")
  const RagHistoryClose: string := Literal("\n</conversation_history>\n\n")
  const RagQueryOpen: string := Literal("<user_query>\n")
  const RagQueryClose: string := Literal("\n</user_query>\n\nInstructions:\n")
  const RagStep1: string := Literal("1. Search the coursebook for the ")
  const RagStep1End: string := Literal("<user_query>.\n")
  const RagStep2: string := Literal("2. Synthesize the search results ")
  const RagStep2End: string := Literal("with the <conversation_history> context.\n")
  const RagStep3: string := Literal("3. Provide a helpful answer.\n")

  const RagHead: string := RagHistoryOpen
  const RagMiddle: string := RagHistoryClose + RagQueryOpen
  const RagTail: string :=
    RagQueryClose + RagStep1 + RagStep1End + RagStep2 + RagStep2End + RagStep3
  const RagUserTemplate: string :=
    RagHead + Field("history") + RagMiddle + Field("last_user_msg") + RagTail

  // CONTEXT_USER_TEMPLATE, around {selected_text} and {user_query}
  const ContextOpen: string := Literal("\n<context>\n    <selected_text>\n    ")
  const ContextSelectionClose: string := Literal("\n    </selected_text>\n")
  const ContextClose: string := Literal("</context>\n\n<user_query>\n")
  const ContextQueryClose: string := Literal("\n</user_query>\n\n")
  const ContextTask: string := Literal("Task: Explain the selected text ")
  const ContextTaskEnd: string := Literal("in relation to the query.\n")

  const ContextHead: string := ContextOpen
  const ContextMiddle: string := ContextSelectionClose + ContextClose
  const ContextTail: string := ContextQueryClose + ContextTask + ContextTaskEnd
  const ContextUserTemplate: string :=
    ContextHead + Field("selected_text") + ContextMiddle + Field("user_query") + ContextTail

  // RESEARCH_USER_TEMPLATE, around {book_section}
  const ResearchIntro: string := Literal("\nThe user is studying the following ")
  const ResearchIntroEnd: string := Literal("section of the book:\n<book_topic>\n")
  const ResearchTopicClose: string := Literal("\n</book_topic>\n\n")
  const ResearchTask: string := Literal("Task: Find the most recent and ")
  const ResearchTaskMore: string := Literal("relevant Arxiv papers regarding ")
  const ResearchTaskMore2: string := Literal("this topic and summarize the ")
  const ResearchTaskEnd: string := Literal("latest developments.\n")

  const ResearchHead: string := ResearchIntro + ResearchIntroEnd
  const ResearchTail: string :=
    ResearchTopicClose + ResearchTask + ResearchTaskMore + ResearchTaskMore2 + ResearchTaskEnd
  const ResearchUserTemplate: string :=
    ResearchHead + Field("book_section") + ResearchTail

  /** `RAG_USER_TEMPLATE.format(history=history, last_user_msg=query)`. */
  function RagPrompt(history: string, query: string): (prompt: string)
    ensures Format(RagUserTemplate, map["history" := history, "last_user_msg" := query]) == Ok(prompt)
  {
    FormatTwoFields(RagHead, "history", RagMiddle, "last_user_msg", RagTail,
                    map["history" := history, "last_user_msg" := query]);
    RagHead + history + RagMiddle + query + RagTail
  }

  /** `CONTEXT_USER_TEMPLATE.format(selected_text=selected, user_query=query)`. */
  function ContextPrompt(selected: string, query: string): (prompt: string)
    ensures Format(ContextUserTemplate, map["selected_text" := selected, "user_query" := query]) == Ok(prompt)
  {
    FormatTwoFields(ContextHead, "selected_text", ContextMiddle, "user_query", ContextTail,
                    map["selected_text" := selected, "user_query" := query]);
    ContextHead + selected + ContextMiddle + query + ContextTail
  }

  /** `RESEARCH_USER_TEMPLATE.format(book_section=section)`. */
  function ResearchPrompt(section: string): (prompt: string)
    ensures Format(ResearchUserTemplate, map["book_section" := section]) == Ok(prompt)
  {
    FormatOneField(ResearchHead, "book_section", ResearchTail, map["book_section" := section]);
    ResearchHead + section + ResearchTail
  }
}
