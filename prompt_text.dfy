/** The text of the two prompt templates, `BILL_ANALYSIS_PROMPT` and
    `NEGOTIATION_SCRIPT_PROMPT`. Each template is a concatenation of parts,
    one part per few lines of the template and one short string literal per
    few words; the only `{` that is not inside a placeholder opens a line,
    and it is kept as a part of its own, `OPEN_BRACE_LINE`. Written this way
    the verifier can establish, part by part, that the other parts hold no
    `{` at all. */
module PromptText {
  import opened JsString

  const OPEN_BRACE_LINE: string := "{\n"

  // The bill analysis template.

  const BILL_ANALYSIS_1: string :=
    "You are " + "BillBuster, " + "an expert " + "bill " + "analyst. " + "Analyze " +
    "this bill "

  const BILL_ANALYSIS_2: string :=
    "image and " + "identify " + "overcharges," + " hidden " + "fees, " + "errors, and " +
    "savings "

  const BILL_ANALYSIS_3: string :=
    "opportunitie" + "s.\n" +
    "\n" +
    "Return a " + "JSON object " + "with this " + "exact " + "structure:\n"

  const BILL_ANALYSIS_4: string :=
    "  " + "\"provider\": " + "\"Company " + "name on the " + "bill\",\n"

  const BILL_ANALYSIS_5: string :=
    "  " + "\"category\": " + "\"phone|inter" + "net|cable|el" + "ectric|gas|w" + "ater|insuran"

  const BILL_ANALYSIS_6: string :=
    "ce|medical|s" + "ubscription|" + "other\",\n"

  const BILL_ANALYSIS_7: string :=
    "  " + "\"totalAmount" + "\": <total " + "in cents, " + "e.g. 15099 " + "for " +
    "$150.99>,\n"

  const BILL_ANALYSIS_8: string :=
    "  " + "\"billDate\": " + "\"YYYY-MM-DD\"" + ",\n" +
    "  " + "\"lineItems\":" + " [\n" +
    "    "

  const BILL_ANALYSIS_9: string :=
    "      " + "\"description" + "\": \"Line " + "item " + "description\"" + ",\n"

  const BILL_ANALYSIS_10: string :=
    "      " + "\"amount\": " + "<amount in " + "cents>,\n" +
    "      " + "\"flagged\": " + "true/false,\n"

  const BILL_ANALYSIS_11: string :=
    "      " + "\"flagReason\"" + ": \"Why this " + "is flagged " + "(only if " +
    "flagged)\",\n"

  const BILL_ANALYSIS_12: string :=
    "      " + "\"typicalAmou" + "nt\": " + "<typical " + "amount in " + "cents for " + "this " +
    "charge, if "

  const BILL_ANALYSIS_13: string :=
    "known>,\n" +
    "      " + "\"confidence\"" + ": 0.0-1.0\n" +
    "    }\n" +
    "  ],\n" +
    "  " + "\"findings\": " + "[\n" +
    "    "

  const BILL_ANALYSIS_14: string :=
    "      " + "\"type\": " + "\"overcharge|" + "hidden_fee|e" + "rror|rate_in" + "crease|unnec"

  const BILL_ANALYSIS_15: string :=
    "essary_servi" + "ce|optimizat" + "ion\",\n"

  const BILL_ANALYSIS_16: string :=
    "      " + "\"severity\": " + "\"low|medium|" + "high|critica" + "l\",\n"

  const BILL_ANALYSIS_17: string :=
    "      " + "\"title\": " + "\"Short " + "title\",\n"

  const BILL_ANALYSIS_18: string :=
    "      " + "\"description" + "\": " + "\"Detailed " + "explanation " + "of the " +
    "issue and " + "why it "

  const BILL_ANALYSIS_19: string :=
    "matters\",\n" +
    "      " + "\"estimatedSa" + "vings\": " + "<potential " + "savings in " + "cents>,\n"

  const BILL_ANALYSIS_20: string :=
    "      " + "\"confidence\"" + ": 0.0-1.0\n" +
    "    }\n" +
    "  ],\n"

  const BILL_ANALYSIS_21: string :=
    "  " + "\"summary\": " + "\"2-3 " + "sentence " + "overview of " + "the bill " +
    "analysis\",\n"

  const BILL_ANALYSIS_22: string :=
    "  " + "\"overallRisk" + "Score\": " + "0-100,\n"

  const BILL_ANALYSIS_23: string :=
    "  " + "\"totalIdenti" + "fiedSavings\"" + ": <total " + "potential " + "savings in " +
    "cents>\n" +
    "}\n" +
    "\n"

  const BILL_ANALYSIS_24: string :=
    "Guidelines:\n" +
    "- Be " + "thorough: " + "check every " + "line item\n"

  const BILL_ANALYSIS_25: string :=
    "- Flag " + "charges " + "that seem " + "higher than " + "industry " + "averages\n"

  const BILL_ANALYSIS_26: string :=
    "- Look for " + "duplicate " + "charges, " + "regulatory " + "recovery " + "fees, admin " +
    "fees\n"

  const BILL_ANALYSIS_27: string :=
    "- Identify " + "promotional " + "rates that " + "have " + "expired\n"

  const BILL_ANALYSIS_28: string :=
    "- Note any " + "charges for " + "services " + "that may " + "not be " + "needed\n"

  const BILL_ANALYSIS_29: string :=
    "- Be " + "conservative" + " with " + "confidence " + "scores\n"

  const BILL_ANALYSIS_30: string :=
    "- All " + "monetary " + "amounts " + "must be in " + "cents " + "(integer)"

  const BILL_ANALYSIS_PARTS: seq<string> := [
    BILL_ANALYSIS_1, BILL_ANALYSIS_2, BILL_ANALYSIS_3, OPEN_BRACE_LINE, BILL_ANALYSIS_4,
    BILL_ANALYSIS_5, BILL_ANALYSIS_6, BILL_ANALYSIS_7, BILL_ANALYSIS_8, OPEN_BRACE_LINE,
    BILL_ANALYSIS_9, BILL_ANALYSIS_10, BILL_ANALYSIS_11, BILL_ANALYSIS_12, BILL_ANALYSIS_13,
    OPEN_BRACE_LINE, BILL_ANALYSIS_14, BILL_ANALYSIS_15, BILL_ANALYSIS_16, BILL_ANALYSIS_17,
    BILL_ANALYSIS_18, BILL_ANALYSIS_19, BILL_ANALYSIS_20, BILL_ANALYSIS_21, BILL_ANALYSIS_22,
    BILL_ANALYSIS_23, BILL_ANALYSIS_24, BILL_ANALYSIS_25, BILL_ANALYSIS_26, BILL_ANALYSIS_27,
    BILL_ANALYSIS_28, BILL_ANALYSIS_29, BILL_ANALYSIS_30
  ]

  const BILL_ANALYSIS_PROMPT: string := Concat(BILL_ANALYSIS_PARTS)

  // The negotiation script template: an introduction, three labelled
  // placeholders, and the response format with its guidelines.

  const SCRIPT_INTRO: string :=
    "You are " + "BillBuster, " + "an expert " + "negotiation " + "coach. " + "Generate a " +
    "phone " +
    "negotiation " + "script for " + "calling the " + "bill " + "provider.\n" +
    "\n" +
    "Provider: "

  const SCRIPT_TAIL_1: string :=
    "\n" +
    "\n" +
    "Return a " + "JSON object " + "with this " + "exact " + "structure:\n"

  const SCRIPT_TAIL_2: string :=
    "  " + "\"sections\": " + "[\n" +
    "    "

  const SCRIPT_TAIL_3: string :=
    "      " + "\"title\": " + "\"Opening\",\n"

  const SCRIPT_TAIL_4: string :=
    "      " + "\"content\": " + "\"Exact " + "words to " + "say when " + "calling...\"\n" +
    "    },\n" +
    "    "

  const SCRIPT_TAIL_5: string :=
    "      " + "\"title\": " + "\"State Your " + "Case\",\n"

  const SCRIPT_TAIL_6: string :=
    "      " + "\"content\": " + "\"How to " + "present the " + "issues " + "found...\"\n" +
    "    },\n" +
    "    "

  const SCRIPT_TAIL_7: string :=
    "      " + "\"title\": " + "\"Negotiate\"," + "\n"

  const SCRIPT_TAIL_8: string :=
    "      " + "\"content\": " + "\"Negotiation" + " tactics " + "and " + "responses..." +
    "\"\n" +
    "    },\n" +
    "    "

  const SCRIPT_TAIL_9: string :=
    "      " + "\"title\": " + "\"Close the " + "Deal\",\n"

  const SCRIPT_TAIL_10: string :=
    "      " + "\"content\": " + "\"How to " + "lock in the " + "savings...\"\n" +
    "    },\n" +
    "    "

  const SCRIPT_TAIL_11: string :=
    "      " + "\"title\": " + "\"If They " + "Say No\",\n"

  const SCRIPT_TAIL_12: string :=
    "      " + "\"content\": " + "\"Escalation " + "tactics...\"\n" +
    "    }\n" +
    "  ],\n" +
    "  " + "\"keyPoints\":" + " [\n"

  const SCRIPT_TAIL_13: string :=
    "    \"Key " + "point 1 to " + "remember\",\n" +
    "    \"Key " + "point 2 to " + "remember\"\n" +
    "  ]\n" +
    "}\n" +
    "\n"

  const SCRIPT_TAIL_14: string :=
    "Guidelines:\n" +
    "- Be " + "specific to " + "the " + "provider " + "and issues " + "found\n"

  const SCRIPT_TAIL_15: string :=
    "- Include " + "exact " + "phrases and " + "talking " + "points\n"

  const SCRIPT_TAIL_16: string :=
    "- Mention " + "competitor " + "rates when " + "relevant\n"

  const SCRIPT_TAIL_17: string :=
    "- Include " + "retention " + "department " + "escalation " + "tips\n"

  const SCRIPT_TAIL_18: string :=
    "- Keep tone " + "firm but " + "polite\n"

  const SCRIPT_TAIL_19: string :=
    "- Reference " + "specific " + "charges by " + "name and " + "amount"

  const SCRIPT_TAIL_PARTS: seq<string> := [
    SCRIPT_TAIL_1, OPEN_BRACE_LINE, SCRIPT_TAIL_2, OPEN_BRACE_LINE, SCRIPT_TAIL_3,
    SCRIPT_TAIL_4, OPEN_BRACE_LINE, SCRIPT_TAIL_5, SCRIPT_TAIL_6, OPEN_BRACE_LINE,
    SCRIPT_TAIL_7, SCRIPT_TAIL_8, OPEN_BRACE_LINE, SCRIPT_TAIL_9, SCRIPT_TAIL_10,
    OPEN_BRACE_LINE, SCRIPT_TAIL_11, SCRIPT_TAIL_12, SCRIPT_TAIL_13, SCRIPT_TAIL_14,
    SCRIPT_TAIL_15, SCRIPT_TAIL_16, SCRIPT_TAIL_17, SCRIPT_TAIL_18, SCRIPT_TAIL_19
  ]

  const SCRIPT_TAIL: string := Concat(SCRIPT_TAIL_PARTS)

  // Each part other than OPEN_BRACE_LINE is free of `{`.

  lemma BillAnalysis1BraceFree()
    ensures '{' !in BILL_ANALYSIS_1
  {
  }

  lemma BillAnalysis2BraceFree()
    ensures '{' !in BILL_ANALYSIS_2
  {
  }

  lemma BillAnalysis3BraceFree()
    ensures '{' !in BILL_ANALYSIS_3
  {
  }

  lemma BillAnalysis4BraceFree()
    ensures '{' !in BILL_ANALYSIS_4
  {
  }

  lemma BillAnalysis5BraceFree()
    ensures '{' !in BILL_ANALYSIS_5
  {
  }

  lemma BillAnalysis6BraceFree()
    ensures '{' !in BILL_ANALYSIS_6
  {
  }

  lemma BillAnalysis7BraceFree()
    ensures '{' !in BILL_ANALYSIS_7
  {
  }

  lemma BillAnalysis8BraceFree()
    ensures '{' !in BILL_ANALYSIS_8
  {
  }

  lemma BillAnalysis9BraceFree()
    ensures '{' !in BILL_ANALYSIS_9
  {
  }

  lemma BillAnalysis10BraceFree()
    ensures '{' !in BILL_ANALYSIS_10
  {
  }

  lemma BillAnalysis11BraceFree()
    ensures '{' !in BILL_ANALYSIS_11
  {
  }

  lemma BillAnalysis12BraceFree()
    ensures '{' !in BILL_ANALYSIS_12
  {
  }

  lemma BillAnalysis13BraceFree()
    ensures '{' !in BILL_ANALYSIS_13
  {
  }

  lemma BillAnalysis14BraceFree()
    ensures '{' !in BILL_ANALYSIS_14
  {
  }

  lemma BillAnalysis15BraceFree()
    ensures '{' !in BILL_ANALYSIS_15
  {
  }

  lemma BillAnalysis16BraceFree()
    ensures '{' !in BILL_ANALYSIS_16
  {
  }

  lemma BillAnalysis17BraceFree()
    ensures '{' !in BILL_ANALYSIS_17
  {
  }

  lemma BillAnalysis18BraceFree()
    ensures '{' !in BILL_ANALYSIS_18
  {
  }

  lemma BillAnalysis19BraceFree()
    ensures '{' !in BILL_ANALYSIS_19
  {
  }

  lemma BillAnalysis20BraceFree()
    ensures '{' !in BILL_ANALYSIS_20
  {
  }

  lemma BillAnalysis21BraceFree()
    ensures '{' !in BILL_ANALYSIS_21
  {
  }

  lemma BillAnalysis22BraceFree()
    ensures '{' !in BILL_ANALYSIS_22
  {
  }

  lemma BillAnalysis23BraceFree()
    ensures '{' !in BILL_ANALYSIS_23
  {
  }

  lemma BillAnalysis24BraceFree()
    ensures '{' !in BILL_ANALYSIS_24
  {
  }

  lemma BillAnalysis25BraceFree()
    ensures '{' !in BILL_ANALYSIS_25
  {
  }

  lemma BillAnalysis26BraceFree()
    ensures '{' !in BILL_ANALYSIS_26
  {
  }

  lemma BillAnalysis27BraceFree()
    ensures '{' !in BILL_ANALYSIS_27
  {
  }

  lemma BillAnalysis28BraceFree()
    ensures '{' !in BILL_ANALYSIS_28
  {
  }

  lemma BillAnalysis29BraceFree()
    ensures '{' !in BILL_ANALYSIS_29
  {
  }

  lemma BillAnalysis30BraceFree()
    ensures '{' !in BILL_ANALYSIS_30
  {
  }

  lemma ScriptTail1BraceFree()
    ensures '{' !in SCRIPT_TAIL_1
  {
  }

  lemma ScriptTail2BraceFree()
    ensures '{' !in SCRIPT_TAIL_2
  {
  }

  lemma ScriptTail3BraceFree()
    ensures '{' !in SCRIPT_TAIL_3
  {
  }

  lemma ScriptTail4BraceFree()
    ensures '{' !in SCRIPT_TAIL_4
  {
  }

  lemma ScriptTail5BraceFree()
    ensures '{' !in SCRIPT_TAIL_5
  {
  }

  lemma ScriptTail6BraceFree()
    ensures '{' !in SCRIPT_TAIL_6
  {
  }

  lemma ScriptTail7BraceFree()
    ensures '{' !in SCRIPT_TAIL_7
  {
  }

  lemma ScriptTail8BraceFree()
    ensures '{' !in SCRIPT_TAIL_8
  {
  }

  lemma ScriptTail9BraceFree()
    ensures '{' !in SCRIPT_TAIL_9
  {
  }

  lemma ScriptTail10BraceFree()
    ensures '{' !in SCRIPT_TAIL_10
  {
  }

  lemma ScriptTail11BraceFree()
    ensures '{' !in SCRIPT_TAIL_11
  {
  }

  lemma ScriptTail12BraceFree()
    ensures '{' !in SCRIPT_TAIL_12
  {
  }

  lemma ScriptTail13BraceFree()
    ensures '{' !in SCRIPT_TAIL_13
  {
  }

  lemma ScriptTail14BraceFree()
    ensures '{' !in SCRIPT_TAIL_14
  {
  }

  lemma ScriptTail15BraceFree()
    ensures '{' !in SCRIPT_TAIL_15
  {
  }

  lemma ScriptTail16BraceFree()
    ensures '{' !in SCRIPT_TAIL_16
  {
  }

  lemma ScriptTail17BraceFree()
    ensures '{' !in SCRIPT_TAIL_17
  {
  }

  lemma ScriptTail18BraceFree()
    ensures '{' !in SCRIPT_TAIL_18
  {
  }

  lemma ScriptTail19BraceFree()
    ensures '{' !in SCRIPT_TAIL_19
  {
  }

  lemma ScriptIntroBraceFree()
    ensures '{' !in SCRIPT_INTRO
  {
  }

  /** Every part of the bill analysis template is `OPEN_BRACE_LINE` or free of `{`. */
  lemma BillAnalysisPartsBraceFree()
    ensures forall i :: 0 <= i < |BILL_ANALYSIS_PARTS| ==>
      BILL_ANALYSIS_PARTS[i] == OPEN_BRACE_LINE || '{' !in BILL_ANALYSIS_PARTS[i]
  {
    BillAnalysis1BraceFree();
    BillAnalysis2BraceFree();
    BillAnalysis3BraceFree();
    BillAnalysis4BraceFree();
    BillAnalysis5BraceFree();
    BillAnalysis6BraceFree();
    BillAnalysis7BraceFree();
    BillAnalysis8BraceFree();
    BillAnalysis9BraceFree();
    BillAnalysis10BraceFree();
    BillAnalysis11BraceFree();
    BillAnalysis12BraceFree();
    BillAnalysis13BraceFree();
    BillAnalysis14BraceFree();
    BillAnalysis15BraceFree();
    BillAnalysis16BraceFree();
    BillAnalysis17BraceFree();
    BillAnalysis18BraceFree();
    BillAnalysis19BraceFree();
    BillAnalysis20BraceFree();
    BillAnalysis21BraceFree();
    BillAnalysis22BraceFree();
    BillAnalysis23BraceFree();
    BillAnalysis24BraceFree();
    BillAnalysis25BraceFree();
    BillAnalysis26BraceFree();
    BillAnalysis27BraceFree();
    BillAnalysis28BraceFree();
    BillAnalysis29BraceFree();
    BillAnalysis30BraceFree();
  }

  /** Every part of the script template's tail is `OPEN_BRACE_LINE` or free of `{`. */
  lemma ScriptTailPartsBraceFree()
    ensures forall i :: 0 <= i < |SCRIPT_TAIL_PARTS| ==>
      SCRIPT_TAIL_PARTS[i] == OPEN_BRACE_LINE || '{' !in SCRIPT_TAIL_PARTS[i]
  {
    ScriptTail1BraceFree();
    ScriptTail2BraceFree();
    ScriptTail3BraceFree();
    ScriptTail4BraceFree();
    ScriptTail5BraceFree();
    ScriptTail6BraceFree();
    ScriptTail7BraceFree();
    ScriptTail8BraceFree();
    ScriptTail9BraceFree();
    ScriptTail10BraceFree();
    ScriptTail11BraceFree();
    ScriptTail12BraceFree();
    ScriptTail13BraceFree();
    ScriptTail14BraceFree();
    ScriptTail15BraceFree();
    ScriptTail16BraceFree();
    ScriptTail17BraceFree();
    ScriptTail18BraceFree();
    ScriptTail19BraceFree();
  }
}
