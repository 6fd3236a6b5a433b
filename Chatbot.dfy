/** The scripted chat assistant of the public site: an ordered table of
    keyword rules picks one of eight canned answers for a message, and the
    chat window keeps the list of messages (starting with the greeting) and
    the text being typed. */
module Chatbot {
  import opened Wrappers

  // ---------------------------------------------------------------------
  // Text helpers: lowercasing, substring search, trimming
  // ---------------------------------------------------------------------

  /** The upper-case letters `toLowerCase` maps one-to-one onto a letter 32
      code points further: A-Z and the Latin-1 capitals (without the
      multiplication sign). */
  predicate IsUpper(c: char)
  {
    ('A' <= c <= 'Z') || ('\U{C0}' <= c <= '\U{DE}' && c != '\U{D7}')
  }

  function LowerChar(c: char): (d: char)
    ensures IsUpper(c) ==> d as int == c as int + 32
    ensures !IsUpper(c) ==> d == c
    ensures !IsUpper(d)
  {
    if IsUpper(c) then (c as int + 32) as char else c
  }

  /** `message.toLowerCase()`, character by character. */
  function ToLower(s: string): (r: string)
    ensures |r| == |s|
    ensures forall i :: 0 <= i < |s| ==> r[i] == LowerChar(s[i])
  {
    if s == [] then [] else [LowerChar(s[0])] + ToLower(s[1..])
  }

  /** Lowercasing twice is lowercasing once. */
  lemma ToLowerIdempotent(s: string)
    ensures ToLower(ToLower(s)) == ToLower(s)
  {
    var r := ToLower(s);
    forall i | 0 <= i < |r|
      ensures ToLower(r)[i] == r[i]
    {
      assert !IsUpper(r[i]);
    }
  }

  /** A string of lowercase ASCII letters and spaces is its own
      lowercase. */
  lemma ToLowerOfLower(s: string)
    requires forall c :: c in s ==> ('a' <= c <= 'z') || c == ' '
    ensures ToLower(s) == s
  {
    forall i | 0 <= i < |s|
      ensures ToLower(s)[i] == s[i]
    {
      assert s[i] in s;
    }
  }

  /** `k` occurs in `s` at position `i`. */
  predicate OccursAt(s: string, k: string, i: int)
  {
    0 <= i && i + |k| <= |s| && s[i..i + |k|] == k
  }

  /** `s.includes(k)`, searching from the left. */
  function Includes(s: string, k: string): bool
    decreases |s|
  {
    if |k| > |s| then false
    else if s[..|k|] == k then true
    else Includes(s[1..], k)
  }

  /** The search finds `k` exactly when it occurs somewhere in `s`. */
  lemma {:induction false} IncludesSpec(s: string, k: string)
    ensures Includes(s, k) <==> exists i :: OccursAt(s, k, i)
    decreases |s|
  {
    if |k| > |s| {
    } else if s[..|k|] == k {
      assert OccursAt(s, k, 0);
    } else {
      IncludesSpec(s[1..], k);
      if Includes(s[1..], k) {
        var i :| OccursAt(s[1..], k, i);
        assert s[i + 1..i + 1 + |k|] == s[1..][i..i + |k|];
        assert OccursAt(s, k, i + 1);
      }
      if exists i :: OccursAt(s, k, i) {
        var i :| OccursAt(s, k, i);
        assert i != 0;
        assert s[1..][i - 1..i - 1 + |k|] == s[i..i + |k|];
        assert OccursAt(s[1..], k, i - 1);
      }
    }
  }

  /** Between strings of the same length, inclusion is equality. */
  lemma SameLength(s: string, k: string)
    requires |s| == |k|
    ensures Includes(s, k) <==> s == k
  {
  }

  /** `k` is not included in `s` when its character at `p` is found
      nowhere an occurrence could put it. */
  lemma CharOutOfPlace(s: string, k: string, p: nat)
    requires p < |k| <= |s| && k[p] !in s[p..|s| - |k| + 1 + p]
    ensures !Includes(s, k)
  {
    IncludesSpec(s, k);
  }

  /** The characters `String.prototype.trim` strips: white space and line
      terminators. */
  predicate IsSpace(c: char)
  {
    c == '\t' || c == '\n' || c == '\U{B}' || c == '\U{C}' || c == '\r' || c == ' '
    || c == '\U{A0}' || c == '\U{1680}' || ('\U{2000}' <= c <= '\U{200A}')
    || c == '\U{2028}' || c == '\U{2029}' || c == '\U{202F}' || c == '\U{205F}'
    || c == '\U{3000}' || c == '\U{FEFF}'
  }

  /** How many characters of white space `s` starts with. */
  function LeadingSpace(s: string): (n: nat)
    ensures n <= |s|
    ensures forall i :: 0 <= i < n ==> IsSpace(s[i])
    ensures n == |s| || !IsSpace(s[n])
  {
    if s != [] && IsSpace(s[0]) then 1 + LeadingSpace(s[1..]) else 0
  }

  /** Where the white space `s` ends with begins. */
  function TrailingSpaceStart(s: string): (n: nat)
    ensures n <= |s|
    ensures forall i :: n <= i < |s| ==> IsSpace(s[i])
    ensures n == 0 || !IsSpace(s[n - 1])
  {
    if s != [] && IsSpace(s[|s| - 1]) then TrailingSpaceStart(s[..|s| - 1]) else |s|
  }

  /** `s.trim()`: the leading white space removed, then the trailing white
      space of what is left. */
  function Trim(s: string): string
  {
    var t := s[LeadingSpace(s)..];
    t[..TrailingSpaceStart(t)]
  }

  /** `!inputMessage.trim()`: the trimmed text is empty exactly when every
      character is white space (the empty string included). */
  lemma BlankIffAllSpace(s: string)
    ensures Trim(s) == "" <==> forall i :: 0 <= i < |s| ==> IsSpace(s[i])
  {
    var a := LeadingSpace(s);
    var t := s[a..];
    if a < |s| {
      assert t[0] == s[a];
      assert TrailingSpaceStart(t) != 0;
    }
  }

  /** Trimming keeps what is between the first and the last character that
      is not white space. */
  lemma TrimKeepsInterior(s: string)
    ensures exists a :: OccursAt(s, Trim(s), a)
    ensures Trim(s) == [] || (!IsSpace(Trim(s)[0]) && !IsSpace(Trim(s)[|Trim(s)| - 1]))
  {
    var a := LeadingSpace(s);
    var t := s[a..];
    var e := TrailingSpaceStart(t);
    assert Trim(s) == s[a..a + e];
    assert OccursAt(s, Trim(s), a);
    if e > 0 {
      assert Trim(s)[0] == s[a];
      assert Trim(s)[e - 1] == t[e - 1];
    }
  }

  // ---------------------------------------------------------------------
  // The answers and the rule table
  // ---------------------------------------------------------------------

  /** The keys of `predefinedResponses`. */
  datatype Topic = Servicios | Precios | Contacto | Empleo | Pasantia | Ubicacion | Horarios | Default

  /** The text of each predefined response. */
  function Reply(t: Topic): string
  {
    match t
    case Servicios => "Ofrecemos desarrollo web, aplicaciones móviles, consultoría IT y soluciones en la nube. ¿Te interesa algún servicio en particular?"
    case Precios => "Nuestros precios varían según el proyecto. El desarrollo web desde $2,500, apps móviles desde $5,000, y consultoría desde $150/hora. ¿Quieres una cotización personalizada?"
    case Contacto => "Puedes contactarnos en josoftsolutiom@gmail.com o al +1 (555) 123-4567. También puedes llenar el formulario de contacto en nuestra página."
    case Empleo => "Estamos siempre buscando talento. Puedes aplicar usando el botón \"Trabajar con nosotros\" en nuestra página principal."
    case Pasantia => "Ofrecemos pasantías para estudiantes. Usa el botón \"Pasantías\" para enviar tu solicitud."
    case Ubicacion => "Estamos ubicados en Av. Tecnología 123, Ciudad Digital."
    case Horarios => "Nuestros horarios son: Lunes a Viernes 9:00 AM - 6:00 PM, Sábados 10:00 AM - 2:00 PM."
    case Default => "Gracias por tu mensaje. Para consultas específicas, te recomiendo contactar directamente a nuestro equipo usando el formulario de contacto."
  }

  /** One `if` of `getResponse`: its keywords, joined by `||`, and the
      answer it returns. */
  datatype Rule = Rule(keywords: seq<string>, topic: Topic)

  /** The `if` chain, in source order. */
  const Rules: seq<Rule> := [
    Rule(["servicio", "que hacen"], Servicios),
    Rule(["precio", "costo", "cuanto"], Precios),
    Rule(["contacto", "telefono", "email"], Contacto),
    Rule(["empleo", "trabajo", "vacante"], Empleo),
    Rule(["pasantia", "practica", "internship"], Pasantia),
    Rule(["ubicacion", "direccion", "donde"], Ubicacion),
    Rule(["horario", "hora", "cuando"], Horarios)
  ]

  /** `s.includes(k1) || s.includes(k2) || ...`, left to right. */
  function AnyIncludes(s: string, ks: seq<string>): bool
  {
    ks != [] && (Includes(s, ks[0]) || AnyIncludes(s, ks[1..]))
  }

  /** The disjunction holds exactly when one of the keywords is included. */
  lemma {:induction false} AnyIncludesSpec(s: string, ks: seq<string>)
    ensures AnyIncludes(s, ks) <==> exists j :: 0 <= j < |ks| && Includes(s, ks[j])
  {
    if ks != [] {
      AnyIncludesSpec(s, ks[1..]);
      assert forall j :: 0 <= j < |ks| - 1 ==> ks[1..][j] == ks[j + 1];
      if AnyIncludes(s, ks[1..]) {
        var j :| 0 <= j < |ks| - 1 && Includes(s, ks[1..][j]);
        assert Includes(s, ks[j + 1]);
      }
      if exists j :: 0 <= j < |ks| && Includes(s, ks[j]) {
        var j :| 0 <= j < |ks| && Includes(s, ks[j]);
        if j > 0 {
          assert Includes(s, ks[1..][j - 1]);
        }
      }
    }
  }

  /** The condition of a rule holds for the (lowercased) message. */
  predicate Matches(r: Rule, s: string)
  {
    AnyIncludes(s, r.keywords)
  }

  /** The answer of the first rule whose condition holds, the default
      answer when none does. */
  function FirstMatch(rules: seq<Rule>, s: string): Topic
  {
    if rules == [] then Default
    else if Matches(rules[0], s) then rules[0].topic
    else FirstMatch(rules[1..], s)
  }

  /** The first rule that holds decides, whatever later rules say. */
  lemma {:induction false} FirstMatchWins(rules: seq<Rule>, s: string, i: nat)
    requires i < |rules| && Matches(rules[i], s)
    requires forall j :: 0 <= j < i ==> !Matches(rules[j], s)
    ensures FirstMatch(rules, s) == rules[i].topic
  {
    if i > 0 {
      assert !Matches(rules[0], s);
      forall j | 0 <= j < i - 1
        ensures !Matches(rules[1..][j], s)
      {
        assert rules[1..][j] == rules[j + 1];
      }
      FirstMatchWins(rules[1..], s, i - 1);
    }
  }

  /** When no rule answers with the default, the default answer comes out
      exactly when no rule holds. */
  lemma {:induction false} FirstMatchDefault(rules: seq<Rule>, s: string)
    requires forall i :: 0 <= i < |rules| ==> rules[i].topic != Default
    ensures FirstMatch(rules, s) == Default <==> forall i :: 0 <= i < |rules| ==> !Matches(rules[i], s)
  {
    if rules != [] {
      assert forall i :: 0 <= i < |rules| - 1 ==> rules[1..][i] == rules[i + 1];
      FirstMatchDefault(rules[1..], s);
    }
  }

  /** The topic `getResponse` answers: the rules tried on the lowercased
      message. */
  function Classify(message: string): Topic
  {
    FirstMatch(Rules, ToLower(message))
  }

  /** `getResponse(message)`. */
  function GetResponse(message: string): string
  {
    Reply(Classify(message))
  }

  /** The rule that answers a message: the first of the seven whose
      condition holds for the lowercased message. */
  lemma ResponseIsFirstRule(message: string, i: nat)
    requires i < |Rules| && Matches(Rules[i], ToLower(message))
    requires forall j :: 0 <= j < i ==> !Matches(Rules[j], ToLower(message))
    ensures Classify(message) == Rules[i].topic
    ensures GetResponse(message) == Reply(Rules[i].topic)
  {
    FirstMatchWins(Rules, ToLower(message), i);
  }

  /** The default answer comes out exactly when no rule of the table holds
      for the lowercased message. */
  lemma DefaultIffNoRule(message: string)
    ensures Classify(message) == Default <==> forall i :: 0 <= i < |Rules| ==> !Matches(Rules[i], ToLower(message))
  {
    FirstMatchDefault(Rules, ToLower(message));
  }

  /** Matching ignores case: a message and its lowercase get the same
      answer. */
  lemma CaseInsensitive(message: string)
    ensures Classify(ToLower(message)) == Classify(message)
  {
    ToLowerIdempotent(message);
  }

  /** "cuanto" asks for prices: the services keywords are too long to occur
      in it. */
  lemma CuantoMeansPrices()
    ensures FirstMatch(Rules, "cuanto") == Precios
  {
    var s := "cuanto";
    assert Matches(Rules[1], s) by {
      SameLength(s, "cuanto");
    }
    FirstMatchWins(Rules, s, 1);
  }

  /** No keyword of the first three rules occurs in "cuando". */
  lemma CuandoMissesFirstRules()
    ensures forall j :: 0 <= j < 3 ==> !Matches(Rules[j], "cuando")
  {
    var s := "cuando";
    assert !Matches(Rules[1], s) by {
      CharOutOfPlace(s, "precio", 0);
      CharOutOfPlace(s, "costo", 1);
      SameLength(s, "cuanto");
    }
    assert !Matches(Rules[2], s) by {
      CharOutOfPlace(s, "email", 0);
    }
  }

  /** No keyword of the next three rules occurs in "cuando" either. */
  lemma CuandoMissesMiddleRules()
    ensures forall j :: 3 <= j < 6 ==> !Matches(Rules[j], "cuando")
  {
    var s := "cuando";
    assert !Matches(Rules[3], s) by {
      CharOutOfPlace(s, "empleo", 0);
    }
    assert !Matches(Rules[5], s) by {
      CharOutOfPlace(s, "donde", 0);
    }
  }

  /** "cuando", one letter away from "cuanto", asks for opening hours: no
      keyword of the first six rules occurs in it. */
  lemma CuandoMeansHours()
    ensures FirstMatch(Rules, "cuando") == Horarios
  {
    var s := "cuando";
    CuandoMissesFirstRules();
    CuandoMissesMiddleRules();
    assert Includes(s, "cuando");
    FirstMatchWins(Rules, s, 6);
  }

  /** No keyword of the first six rules occurs in "ahora". */
  lemma AhoraMissesEarlierRules()
    ensures forall j :: 0 <= j < 6 ==> !Matches(Rules[j], "ahora")
  {
    var s := "ahora";
    assert !Matches(Rules[1], s) by {
      CharOutOfPlace(s, "costo", 0);
    }
    assert !Matches(Rules[2], s) by {
      CharOutOfPlace(s, "email", 0);
    }
    assert !Matches(Rules[5], s) by {
      CharOutOfPlace(s, "donde", 0);
    }
  }

  /** "hora" also matches inside "ahora": a message with no earlier keyword
      that contains "ahora" gets the opening hours. */
  lemma AhoraMeansHours()
    ensures FirstMatch(Rules, "ahora") == Horarios
  {
    var s := "ahora";
    AhoraMissesEarlierRules();
    assert Matches(Rules[6], s) by {
      assert OccursAt(s, "hora", 1);
      IncludesSpec(s, "hora");
    }
    FirstMatchWins(Rules, s, 6);
  }

  /** A message naming both services and prices gets the services answer,
      the first rule in the table. */
  lemma ServicesBeforePrices()
    ensures FirstMatch(Rules, "precio del servicio") == Servicios
  {
    var s := "precio del servicio";
    assert Matches(Rules[0], s) by {
      assert OccursAt(s, "servicio", 11);
      IncludesSpec(s, "servicio");
    }
    FirstMatchWins(Rules, s, 0);
  }

  /** A greeting with no keyword gets the default answer. */
  lemma HolaIsDefault()
    ensures FirstMatch(Rules, "hola") == Default
  {
    var s := "hola";
    assert !Matches(Rules[6], s) by {
      CharOutOfPlace(s, "hora", 2);
    }
    assert forall i :: 0 <= i < |Rules| ==> !Matches(Rules[i], s);
    FirstMatchDefault(Rules, s);
  }

  /** As `getResponse` sees it: "cuanto" is already lowercase and gets the
      prices. */
  lemma CuantoClassified()
    ensures Classify("cuanto") == Precios
  {
    ToLowerOfLower("cuanto");
    CuantoMeansPrices();
  }

  /** The message "cuando" gets the opening hours. */
  lemma CuandoClassified()
    ensures Classify("cuando") == Horarios
    ensures GetResponse("cuando") == Reply(Horarios)
  {
    ToLowerOfLower("cuando");
    CuandoMeansHours();
  }

  /** The message "ahora" gets the opening hours, through its "hora". */
  lemma AhoraClassified()
    ensures Classify("ahora") == Horarios
    ensures GetResponse("ahora") == Reply(Horarios)
  {
    ToLowerOfLower("ahora");
    AhoraMeansHours();
  }

  /** Capitals make no difference: "CUANDO" lowercases to "cuando" and gets
      the opening hours. */
  lemma CapitalsIgnored()
    ensures Classify("CUANDO") == Horarios
  {
    assert ToLower("CUANDO") == "cuando";
    CuandoMeansHours();
  }

  // ---------------------------------------------------------------------
  // The chat window
  // ---------------------------------------------------------------------

  /** A chat message; `id` and `timestamp` come from the clock. */
  datatype Message = Message(id: int, text: string, isBot: bool, timestamp: int)

  const Greeting: string := "¡Hola! Soy el asistente virtual de JoSoftSolution. ¿En qué puedo ayudarte hoy?"

  /** Text the bot can say after the greeting: one of the answers. */
  ghost predicate IsReply(text: string)
  {
    exists t :: Reply(t) == text
  }

  /** The `messages` and `inputMessage` state cells. */
  class Chat {
    var messages: seq<Message>
    var input: string
    /** The greeting message the list was created with. */
    ghost const greeting: Message

    /** The list always starts with the greeting it was created with, and
        every later bot message is one of the answers. */
    ghost predicate Valid()
      reads this
    {
      |messages| >= 1 && messages[0] == greeting
      && forall i :: 1 <= i < |messages| && messages[i].isBot ==> IsReply(messages[i].text)
    }

    /** The first render, at time `now`: only the greeting, nothing typed. */
    constructor (now: int)
      ensures Valid()
      ensures greeting == Message(1, Greeting, true, now)
      ensures messages == [greeting] && input == ""
    {
      greeting := Message(1, Greeting, true, now);
      messages := [Message(1, Greeting, true, now)];
      input := "";
    }

    /** The input's `onChange`. */
    method SetInput(text: string)
      requires Valid()
      modifies this
      ensures Valid()
      ensures input == text && messages == old(messages)
    {
      input := text;
    }

    /** The synchronous part of `handleSendMessage` at time `now`: blank
        input changes nothing and sends nothing; otherwise the user's
        message is appended, the input cleared and the sent text returned
        for the reply. */
    method Send(now: int) returns (sent: Option<string>)
      requires Valid()
      modifies this
      ensures Valid()
      ensures Trim(old(input)) == "" ==> sent == None && messages == old(messages) && input == old(input)
      ensures Trim(old(input)) != "" ==>
        sent == Some(old(input))
        && messages == old(messages) + [Message(now, old(input), false, now)]
        && input == ""
    {
      if Trim(input) == "" {
        sent := None;
      } else {
        messages := messages + [Message(now, input, false, now)];
        sent := Some(input);
        input := "";
      }
    }

    /** The delayed part: at time `now` the bot's answer to the text that
        was sent is appended, with id `now + 1`. */
    method ReceiveReply(sent: string, now: int)
      requires Valid()
      modifies this
      ensures Valid()
      ensures messages == old(messages) + [Message(now + 1, GetResponse(sent), true, now)]
      ensures input == old(input)
    {
      assert IsReply(GetResponse(sent));
      messages := messages + [Message(now + 1, GetResponse(sent), true, now)];
    }

    /** `handleSendMessage` with the user's message at `now` and the reply
        at `later`: a non-blank input adds the question and its answer. */
    method HandleSendMessage(now: int, later: int)
      requires Valid()
      modifies this
      ensures Valid()
      ensures Trim(old(input)) == "" ==> messages == old(messages) && input == old(input)
      ensures Trim(old(input)) != "" ==>
        messages == old(messages) + [Message(now, old(input), false, now),
                                     Message(later + 1, GetResponse(old(input)), true, later)]
        && input == ""
    {
      var sent := Send(now);
      if sent.Some? {
        ReceiveReply(sent.value, later);
      }
    }

    /** `handleKeyPress(e)`: Enter sends, any other key does nothing. */
    method KeyPress(key: string, now: int, later: int)
      requires Valid()
      modifies this
      ensures Valid()
      ensures key != "Enter" ==> messages == old(messages) && input == old(input)
      ensures key == "Enter" && Trim(old(input)) == "" ==> messages == old(messages) && input == old(input)
      ensures key == "Enter" && Trim(old(input)) != "" ==>
        messages == old(messages) + [Message(now, old(input), false, now),
                                     Message(later + 1, GetResponse(old(input)), true, later)]
        && input == ""
    {
      if key == "Enter" {
        HandleSendMessage(now, later);
      }
    }
  }

  /** Blank input is ignored: the list keeps only the greeting. */
  method BlankInputScenario()
  {
    var chat := new Chat(0);
    chat.SetInput("  \t");
    assert IsSpace(chat.input[0]) && IsSpace(chat.input[1]) && IsSpace(chat.input[2]);
    BlankIffAllSpace(chat.input);
    chat.HandleSendMessage(10, 1010);
    assert chat.messages == [chat.greeting];
  }
}
