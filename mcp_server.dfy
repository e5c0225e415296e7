/** The toy request/response server: its fixed catalog, the dispatch of a
    message by its `type`, the two tools, the template generator and the
    read-respond loop over standard input. Parsed messages are `JValue`s; the
    JSON parser is a given function from a line to a value or `None` (a decode
    error); the file system is a given map from paths to entries. */
module McpServer {
  import opened Wrappers
  import opened Strings
  import opened Json

  const NOME := "automacao-basica"
  const VERSAO := "1.0.0"
  const LISTAR := "listar_arquivos"
  const CRIAR := "criar_automacao"
  const NOT_FOUND := "Ferramenta não encontrada: "
  const NO_PATH := "Caminho não existe: "
  const UNSUPPORTED := "Tipo não suportado: "
  const DESC_LISTAR := "Lista arquivos em um diretório"
  const DESC_CRIAR := "Cria automação para tarefa repetitiva"
  const DESC_CAMINHO := "Caminho do diretório"
  const DESC_PADRAO := "Padrão detectado"
  const DESC_TIPO := "Tipo de automação (gancho|script|mcp)"
  const DESC_ANALISAR := "Analisa estrutura e padrões do projeto"
  const DESC_SUGERIR := "Sugere próximas evoluções para o sistema"
  const INDENT := "                "
  const TEMPLATE_ANALISAR :=
    "\n"
    + INDENT + "Analise o projeto atual e identifique:\n"
    + INDENT + "1. Estrutura de diretórios\n"
    + INDENT + "2. Padrões de código utilizados\n"
    + INDENT + "3. Oportunidades de automação\n"
    + INDENT + "4. Configurações existentes\n"
    + INDENT
  const TEMPLATE_SUGERIR :=
    "\n"
    + INDENT + "Baseado no uso atual, sugira:\n"
    + INDENT + "1. Próximos ganchos a implementar\n"
    + INDENT + "2. Automações que trariam benefícios\n"
    + INDENT + "3. Métricas importantes a coletar\n"
    + INDENT

  // ---------------------------------------------------------------------------
  // The fixed catalog
  // ---------------------------------------------------------------------------

  /** A required string parameter of a tool, as the catalog describes it. */
  function StringParam(descricao: string): JValue {
    JObj([("tipo", JStr("string")), ("descricao", JStr(descricao)), ("obrigatorio", JBool(true))])
  }

  /** A catalog entry: a name, a description and the parameters it takes. */
  function Tool(nome: string, descricao: string, parametros: Fields): JValue {
    JObj([("nome", JStr(nome)), ("descricao", JStr(descricao)), ("parametros", JObj(parametros))])
  }

  /** `definir_ferramentas`: the two tools the server offers. */
  function Ferramentas(): seq<JValue> {
    [ Tool(LISTAR, DESC_LISTAR,
           [("caminho", StringParam(DESC_CAMINHO))]),
      Tool(CRIAR, DESC_CRIAR,
           [ ("padrao", StringParam(DESC_PADRAO)),
             ("tipo", StringParam(DESC_TIPO)) ]) ]
  }

  /** `definir_prompts`: the two reusable prompts. */
  function Prompts(): seq<JValue> {
    [ JObj([ ("nome", JStr("analisar_projeto")),
             ("descricao", JStr(DESC_ANALISAR)),
             ("template", JStr(TEMPLATE_ANALISAR)) ]),
      JObj([ ("nome", JStr("sugerir_evolucao")),
             ("descricao", JStr(DESC_SUGERIR)),
             ("template", JStr(TEMPLATE_SUGERIR)) ]) ]
  }

  /** The `nome` of a catalog entry, or "" for anything else. */
  function ToolName(tool: JValue): string {
    if tool.JObj? then GetString(tool.fields, "nome").GetOr("") else ""
  }

  /** The names of the parameters marked `obrigatorio`, in order. */
  function RequiredOf(parametros: Fields): seq<string>
    decreases |parametros|
  {
    if |parametros| == 0 then []
    else
      var p := parametros[0].1;
      (if p.JObj? && Get(p.fields, "obrigatorio") == Some(JBool(true)) then [parametros[0].0] else [])
      + RequiredOf(parametros[1..])
  }

  /** The parameters a catalog entry marks `obrigatorio`. */
  function RequiredParams(tool: JValue): seq<string> {
    if tool.JObj? then
      match Get(tool.fields, "parametros")
      case Some(JObj(ps)) => RequiredOf(ps)
      case _ => []
    else []
  }

  lemma ToolLookups(nome: string, descricao: string, parametros: Fields)
    ensures ToolName(Tool(nome, descricao, parametros)) == nome
    ensures RequiredParams(Tool(nome, descricao, parametros)) == RequiredOf(parametros)
  {
    GetAt(Tool(nome, descricao, parametros).fields, 2);
  }

  lemma StringParamRequired(descricao: string)
    ensures Get(StringParam(descricao).fields, "obrigatorio") == Some(JBool(true))
  {
    GetAt(StringParam(descricao).fields, 2);
  }

  /** The catalog in short: its two tool names and the parameters each requires. */
  lemma {:induction false} CatalogShape()
    ensures |Ferramentas()| == 2
    ensures ToolName(Ferramentas()[0]) == LISTAR && RequiredParams(Ferramentas()[0]) == ["caminho"]
    ensures ToolName(Ferramentas()[1]) == CRIAR && RequiredParams(Ferramentas()[1]) == ["padrao", "tipo"]
  {
    var p0 := [("caminho", StringParam(DESC_CAMINHO))];
    var p1 := [ ("padrao", StringParam(DESC_PADRAO)),
                ("tipo", StringParam(DESC_TIPO)) ];
    ToolLookups(LISTAR, DESC_LISTAR, p0);
    ToolLookups(CRIAR, DESC_CRIAR, p1);
    StringParamRequired(DESC_CAMINHO);
    StringParamRequired(DESC_PADRAO);
    StringParamRequired(DESC_TIPO);
    assert RequiredOf(p0) == ["caminho"] + RequiredOf(p0[1..]);
    assert RequiredOf(p1[1..]) == ["tipo"] + RequiredOf(p1[2..]);
    assert RequiredOf(p1) == ["padrao"] + RequiredOf(p1[1..]);
  }

  // ---------------------------------------------------------------------------
  // Tools
  // ---------------------------------------------------------------------------

  /** A path of the file system: a directory with the entries `iterdir` yields
      (as the strings `str(f)` gives), or a regular file. */
  datatype Entry = Directory(children: seq<string>) | RegularFile


  type FileSystem = map<string, Entry>

  /** The end of a Python call: the value it returns, or the exception it
      raises (by class name) for the caller to propagate. */
  datatype Outcome = Returns(value: JValue) | Raises(exception: string)

  /** `listar_arquivos`: an `erro` naming the path when it does not exist,
      otherwise its entries and their count; `iterdir` on a regular file raises. */
  function ListarArquivos(fs: FileSystem, caminho: string): (r: Outcome)
    ensures r.Raises? <==> caminho in fs && fs[caminho].RegularFile?
    ensures r.Returns? ==> r.value.JObj?
    ensures r.Returns? ==> (caminho !in fs <==> Get(r.value.fields, "erro").Some?)
    ensures caminho !in fs ==> r == Returns(JObj([("erro", JStr(NO_PATH + caminho))]))
    ensures caminho in fs && fs[caminho].Directory? ==>
              && Keys(r.value.fields) == ["arquivos", "total"]
              && Get(r.value.fields, "arquivos").Some? && Get(r.value.fields, "arquivos").value.JArr?
              && var arquivos := Get(r.value.fields, "arquivos").value.items;
                 && Get(r.value.fields, "total") == Some(JNum(|arquivos|))
                 && |arquivos| == |fs[caminho].children|
                 && forall i :: 0 <= i < |arquivos| ==> arquivos[i] == JStr(fs[caminho].children[i])
  {
    if caminho !in fs then
      Returns(JObj([("erro", JStr(NO_PATH + caminho))]))
    else if fs[caminho].RegularFile? then
      Raises("NotADirectoryError")
    else
      var children := fs[caminho].children;
      var arquivos := seq(|children|, i requires 0 <= i < |children| => JStr(children[i]));
      var fields := [("arquivos", JArr(arquivos)), ("total", JNum(|arquivos|))];
      GetFinds(fields, "erro");
      Returns(JObj(fields))
  }

  // The fixed pieces of the two generated scripts.
  const GANCHO_HEAD := "\n# Gancho automático para: "
  const GANCHO_IMPORTS := "\nimport json\nimport sys\n\n"
  const GANCHO_READ := "\n    contexto = json.loads(sys.stdin.read())\n    # Implementar lógica específica\n    print(f\"Processando "
  const GANCHO_MAIN := ": {contexto}\")\n    \nif __name__ == \"__main__\":\n    processar_"
  const SCRIPT_HEAD := "\n#!/bin/bash\n# Script automático para: "
  const SCRIPT_TAIL := "\n# Adicionar comandos específicos\n"

  /** The definition line of the generated hook's function. */
  function HookDefinition(padrao: string): string {
    "def processar_" + ReplaceChar(padrao, ' ', '_') + "():"
  }

  /** The generated Python hook: a header naming the pattern and a function
      `processar_<pattern with spaces as underscores>` that the script calls. */
  function GanchoTemplate(padrao: string): (r: string)
    ensures |r| > |GANCHO_HEAD + padrao| && r[..|GANCHO_HEAD + padrao|] == GANCHO_HEAD + padrao
    ensures Contains(r, HookDefinition(padrao))
  {
    var head := GANCHO_HEAD + padrao + GANCHO_IMPORTS;
    var body := GANCHO_READ + padrao + GANCHO_MAIN + ReplaceChar(padrao, ' ', '_') + "()\n";
    OccursBetween(head, HookDefinition(padrao), body);
    PrefixOfConcat(GANCHO_HEAD + padrao, GANCHO_IMPORTS + HookDefinition(padrao) + body);
    head + HookDefinition(padrao) + body
  }

  /** The `echo` line of the generated bash script. */
  function ScriptEcho(padrao: string): string {
    "echo \"Executando automação: " + padrao + "\""
  }

  /** The generated bash script: a header naming the pattern and one `echo`. */
  function ScriptTemplate(padrao: string): (r: string)
    ensures |r| > |SCRIPT_HEAD + padrao| && r[..|SCRIPT_HEAD + padrao|] == SCRIPT_HEAD + padrao
    ensures Contains(r, ScriptEcho(padrao))
  {
    OccursBetween(SCRIPT_HEAD + padrao + "\n", ScriptEcho(padrao), SCRIPT_TAIL);
    PrefixOfConcat(SCRIPT_HEAD + padrao, "\n" + ScriptEcho(padrao) + SCRIPT_TAIL);
    SCRIPT_HEAD + padrao + "\n" + ScriptEcho(padrao) + SCRIPT_TAIL
  }

  /** `gerar_automacao`: a hook for kind `gancho`, a bash script for kind
      `script`, a one-line placeholder for any other kind. The pattern is text
      for a hook (its `replace` needs a string) and any value otherwise, shown
      as Python's `str()` shows it. */
  function GerarAutomacao(padrao: JValue, tipo: JValue): (r: string)
    requires tipo == JStr("gancho") ==> padrao.JStr?
    ensures tipo == JStr("gancho") ==> r == GanchoTemplate(padrao.s)
    ensures tipo == JStr("script") ==> r == ScriptTemplate(PyStr(padrao))
    ensures tipo != JStr("gancho") && tipo != JStr("script") ==>
              r == "# Template para " + PyStr(tipo) + ": " + PyStr(padrao)
  {
    if tipo == JStr("gancho") then GanchoTemplate(padrao.s)
    else if tipo == JStr("script") then ScriptTemplate(PyStr(padrao))
    else "# Template para " + PyStr(tipo) + ": " + PyStr(padrao)
  }

  /** The name of the generated hook function contains no space. */
  lemma GeneratedHookNameHasNoSpace(padrao: string)
    ensures var nome := ReplaceChar(padrao, ' ', '_');
            ' ' !in nome && |nome| == |padrao| &&
            forall i :: 0 <= i < |padrao| && padrao[i] != ' ' ==> nome[i] == padrao[i]
  {
    ReplaceCharRemoves(padrao, ' ', '_');
  }

  lemma HookStart(padrao: string)
    ensures var r := GanchoTemplate(padrao); |r| >= 3 && r[0] == '\n' && r[1] == '#' && r[2] == ' '
  {
    var r := GanchoTemplate(padrao);
    assert r[..|GANCHO_HEAD + padrao|] == GANCHO_HEAD + padrao;
    assert r[0] == GANCHO_HEAD[0] && r[1] == GANCHO_HEAD[1] && r[2] == GANCHO_HEAD[2];
  }

  lemma ScriptStart(padrao: string)
    ensures var r := ScriptTemplate(padrao); |r| >= 3 && r[0] == '\n' && r[1] == '#' && r[2] == '!'
  {
    var r := ScriptTemplate(padrao);
    assert r[..|SCRIPT_HEAD + padrao|] == SCRIPT_HEAD + padrao;
    assert r[0] == SCRIPT_HEAD[0] && r[1] == SCRIPT_HEAD[1] && r[2] == SCRIPT_HEAD[2];
  }

  /** The kind of a generated automation can be told from its first
      characters: only the placeholder starts with `#`, only the bash script
      has `!` third. */
  lemma GeneratedKindIsVisible(padrao: JValue, tipo: JValue)
    requires tipo == JStr("gancho") ==> padrao.JStr?
    ensures var r := GerarAutomacao(padrao, tipo);
            && |r| >= 3
            && (r[0] == '#' <==> tipo != JStr("gancho") && tipo != JStr("script"))
            && (r[2] == '!' <==> tipo == JStr("script"))
  {
    if tipo == JStr("gancho") {
      HookStart(padrao.s);
    } else if tipo == JStr("script") {
      ScriptStart(PyStr(padrao));
    } else {
      var r := GerarAutomacao(padrao, tipo);
      assert r[0] == '#' && r[2] == 'T';
    }
  }

  /** `criar_automacao`: a success carrying the generated code; a hook asked
      for a pattern that is not text fails on its `replace`. */
  function CriarAutomacao(padrao: JValue, tipo: JValue): (r: Outcome)
    ensures r.Raises? <==> tipo == JStr("gancho") && !padrao.JStr?
    ensures r.Returns? ==>
              && r.value.JObj? && Keys(r.value.fields) == ["sucesso", "mensagem", "conteudo"]
              && Get(r.value.fields, "sucesso") == Some(JBool(true))
              && Get(r.value.fields, "mensagem") ==
                   Some(JStr("Automação " + PyStr(tipo) + " criada para padrão: " + PyStr(padrao)))
              && Get(r.value.fields, "conteudo") == Some(JStr(GerarAutomacao(padrao, tipo)))
  {
    if tipo == JStr("gancho") && !padrao.JStr? then
      Raises("AttributeError")
    else
      var fields := [ ("sucesso", JBool(true)),
                      ("mensagem", JStr("Automação " + PyStr(tipo) + " criada para padrão: " + PyStr(padrao))),
                      ("conteudo", JStr(GerarAutomacao(padrao, tipo))) ];
      GetAt(fields, 2);
      Returns(JObj(fields))
  }

  /** `parametros[key]`: indexing anything but a dictionary raises `TypeError`,
      a missing key `KeyError`. */
  function Index(params: JValue, key: string): (r: Outcome)
    ensures r.Returns? <==> params.JObj? && Get(params.fields, key).Some?
    ensures r.Returns? ==> r.value == Get(params.fields, key).value
  {
    if !params.JObj? then Raises("TypeError")
    else match Get(params.fields, key)
      case None => Raises("KeyError")
      case Some(v) => Returns(v)
  }

  function NotFound(nome: Option<JValue>): JValue {
    JObj([("erro", JStr(NOT_FOUND + PyStrOpt(nome)))])
  }

  /** `executar_ferramenta`: dispatch on the tool name, reading the parameters
      the tool needs (a path must be text for `Path`); any other name gets the
      not-found error. */
  function ExecutarFerramenta(fs: FileSystem, nome: Option<JValue>, params: JValue): Outcome {
    if nome == Some(JStr(LISTAR)) then
      match Index(params, "caminho")
      case Raises(e) => Raises(e)
      case Returns(JStr(caminho)) => ListarArquivos(fs, caminho)
      case Returns(_) => Raises("TypeError")
    else if nome == Some(JStr(CRIAR)) then
      match (Index(params, "padrao"), Index(params, "tipo"))
      case (Raises(e), _) => Raises(e)
      case (_, Raises(e)) => Raises(e)
      case (Returns(padrao), Returns(tipo)) => CriarAutomacao(padrao, tipo)
    else
      Returns(NotFound(nome))
  }

  /** Which tool calls raise: listing without a textual `caminho` or on a regular
      file, creating without `padrao` or `tipo` or a hook from a pattern that is
      not text, and any call whose parameters are not an object. An unknown
      name never raises. */
  lemma {:induction false} ToolCallRaises(fs: FileSystem, nome: Option<JValue>, params: JValue)
    ensures nome == Some(JStr(LISTAR)) ==>
              (ExecutarFerramenta(fs, nome, params).Raises? <==>
                 !params.JObj? || GetString(params.fields, "caminho").None? ||
                 (GetString(params.fields, "caminho").value in fs &&
                  fs[GetString(params.fields, "caminho").value].RegularFile?))
    ensures nome == Some(JStr(CRIAR)) ==>
              (ExecutarFerramenta(fs, nome, params).Raises? <==>
                 !params.JObj? || Get(params.fields, "padrao").None? || Get(params.fields, "tipo").None? ||
                 (Get(params.fields, "tipo") == Some(JStr("gancho")) && !Get(params.fields, "padrao").value.JStr?))
    ensures nome != Some(JStr(LISTAR)) && nome != Some(JStr(CRIAR)) ==>
              ExecutarFerramenta(fs, nome, params) == Returns(NotFound(nome))
  {
    if nome == Some(JStr(LISTAR)) && params.JObj? {
      match Get(params.fields, "caminho")
      case None =>
      case Some(v) =>
        if v.JStr? {
          assert GetString(params.fields, "caminho") == Some(v.s);
        }
    }
  }

  /** A successful call gives the named tool's own answer: the listing of the
      given path, or the creation report for the given pattern and type. */
  lemma ToolCallResults(fs: FileSystem, params: Fields)
    ensures GetString(params, "caminho").Some? ==>
              ExecutarFerramenta(fs, Some(JStr(LISTAR)), JObj(params)) ==
                ListarArquivos(fs, GetString(params, "caminho").value)
    ensures Get(params, "padrao").Some? && Get(params, "tipo").Some? ==>
              ExecutarFerramenta(fs, Some(JStr(CRIAR)), JObj(params)) ==
                CriarAutomacao(Get(params, "padrao").value, Get(params, "tipo").value)
  {
  }

  /** The catalog and the dispatcher agree: a call answers "not found" exactly
      when its name is not the `nome` of a catalog tool. */
  lemma CatalogMatchesDispatch(fs: FileSystem, nome: Option<JValue>, params: JValue)
    ensures ExecutarFerramenta(fs, nome, params) == Returns(NotFound(nome)) <==>
              forall i :: 0 <= i < |Ferramentas()| ==> nome != Some(JStr(ToolName(Ferramentas()[i])))
  {
    CatalogShape();
    var r := ExecutarFerramenta(fs, nome, params);
    if nome == Some(JStr(LISTAR)) && r.Returns? {
      var caminho := Index(params, "caminho").value.s;
      if caminho !in fs {
        assert (NO_PATH + caminho)[0] != (NOT_FOUND + PyStrOpt(nome))[0];
        assert r.value.fields[0].1 != NotFound(nome).fields[0].1;
      } else {
        assert r.value.fields[0].0 != NotFound(nome).fields[0].0;
      }
    } else if nome == Some(JStr(CRIAR)) && r.Returns? {
      assert |r.value.fields| == 3;
    }
  }

  /** A call that gives every parameter the catalog marks obligatory, as text,
      is answered without an exception unless it lists a regular file. */
  lemma CatalogParamsSuffice(fs: FileSystem, i: nat, params: Fields)
    requires i < |Ferramentas()|
    requires forall k :: 0 <= k < |RequiredParams(Ferramentas()[i])| ==>
               GetString(params, RequiredParams(Ferramentas()[i])[k]).Some?
    ensures var r := ExecutarFerramenta(fs, Some(JStr(ToolName(Ferramentas()[i]))), JObj(params));
            r.Raises? <==> i == 0 && GetString(params, "caminho").Some? &&
                           GetString(params, "caminho").value in fs &&
                           fs[GetString(params, "caminho").value].RegularFile?
  {
    CatalogShape();
    if i == 0 {
      assert GetString(params, RequiredParams(Ferramentas()[0])[0]).Some?;
    } else {
      assert GetString(params, RequiredParams(Ferramentas()[1])[0]).Some?;
      assert GetString(params, RequiredParams(Ferramentas()[1])[1]).Some?;
    }
  }

  // ---------------------------------------------------------------------------
  // Messages
  // ---------------------------------------------------------------------------

  /** The `initialized` envelope: server name and version, and the fixed catalog. */
  function Initialized(): JValue {
    JObj([ ("type", JStr("initialized")),
           ("serverInfo", JObj([("name", JStr(NOME)), ("version", JStr(VERSAO))])),
           ("capabilities", JObj([("tools", JArr(Ferramentas())), ("prompts", JArr(Prompts()))])) ])
  }

  /** The tool call a `tools/call` message makes; parameters default to `{}`. */
  function CallOf(fs: FileSystem, fields: Fields): Outcome {
    ExecutarFerramenta(fs, Get(fields, "tool"), GetOr(fields, "params", JObj([])))
  }

  /** `processar_mensagem`: `initialize` gets the catalog, `tools/call` the
      tool's result, every other or missing type the error naming it; `.get`
      on a message that is not an object raises. */
  function ProcessarMensagem(fs: FileSystem, m: JValue): Outcome {
    if !m.JObj? then Raises("AttributeError")
    else
      var tipoMsg := Get(m.fields, "type");
      if tipoMsg == Some(JStr("initialize")) then
        Returns(Initialized())
      else if tipoMsg == Some(JStr("tools/call")) then
        match CallOf(fs, m.fields)
        case Raises(e) => Raises(e)
        case Returns(resultado) => Returns(JObj([("type", JStr("tools/result")), ("result", resultado)]))
      else
        Returns(JObj([("type", JStr("error")), ("message", JStr(UNSUPPORTED + PyStrOpt(tipoMsg)))]))
  }

  /** A message raises exactly when it is not an object or is a tool call that
      raises; otherwise its answer is the one its type selects. */
  lemma MessageAnswers(fs: FileSystem, m: JValue)
    ensures ProcessarMensagem(fs, m).Raises? <==>
              !m.JObj? || (Get(m.fields, "type") == Some(JStr("tools/call")) && CallOf(fs, m.fields).Raises?)
    ensures m.JObj? && Get(m.fields, "type") == Some(JStr("initialize")) ==>
              ProcessarMensagem(fs, m) == Returns(Initialized())
    ensures m.JObj? && Get(m.fields, "type") == Some(JStr("tools/call")) && CallOf(fs, m.fields).Returns? ==>
              ProcessarMensagem(fs, m) ==
                Returns(JObj([("type", JStr("tools/result")), ("result", CallOf(fs, m.fields).value)]))
    ensures m.JObj? && Get(m.fields, "type") != Some(JStr("initialize")) && Get(m.fields, "type") != Some(JStr("tools/call")) ==>
              ProcessarMensagem(fs, m) ==
                Returns(JObj([ ("type", JStr("error")),
                               ("message", JStr(UNSUPPORTED + PyStrOpt(Get(m.fields, "type")))) ]))
  {
  }

  /** The response type is determined by the request type alone: `initialized`,
      `tools/result` or `error`, and nothing else. */
  lemma ResponseTypeFollowsRequestType(fs: FileSystem, m: JValue)
    requires ProcessarMensagem(fs, m).Returns?
    ensures ProcessarMensagem(fs, m).value.JObj?
    ensures var t := Get(ProcessarMensagem(fs, m).value.fields, "type");
      && (t == Some(JStr("initialized")) <==> Get(m.fields, "type") == Some(JStr("initialize")))
      && (t == Some(JStr("tools/result")) <==> Get(m.fields, "type") == Some(JStr("tools/call")))
      && (t == Some(JStr("error")) <==>
            Get(m.fields, "type") != Some(JStr("initialize")) && Get(m.fields, "type") != Some(JStr("tools/call")))
  {
  }

  // ---------------------------------------------------------------------------
  // The read loop
  // ---------------------------------------------------------------------------

  const INVALID_JSON := JObj([("type", JStr("error")), ("message", JStr("JSON inválido"))])

  /** The answer to one line, given what the parser makes of it: a decode
      error is answered, any other exception propagates. */
  function Respond(fs: FileSystem, parsed: Option<JValue>): Outcome {
    match parsed
    case None => Returns(INVALID_JSON)
    case Some(m) => ProcessarMensagem(fs, m)
  }

  /** Only a decode error is answered with `JSON inválido`: no message,
      whatever its type, gets that answer. */
  lemma InvalidJsonOnlyForDecodeErrors(fs: FileSystem, parsed: Option<JValue>)
    ensures Respond(fs, parsed) == Returns(INVALID_JSON) <==> parsed.None?
  {
    if parsed.Some? && parsed.value.JObj? {
      var tipoMsg := Get(parsed.value.fields, "type");
      if tipoMsg != Some(JStr("initialize")) && tipoMsg != Some(JStr("tools/call")) {
        assert (UNSUPPORTED + PyStrOpt(tipoMsg))[0] != "JSON inválido"[0];
      }
    }
  }

  /** What `print(json.dumps(resposta))` writes: the ASCII-only serialization and a newline. */
  function ResponseLine(resposta: JValue): string {
    Serialize(resposta, true) + "\n"
  }

  /** Every response is one ASCII line: text without a newline, then the newline. */
  lemma ResponseIsOneLine(resposta: JValue)
    ensures var line := ResponseLine(resposta);
            && |line| > 0 && line[|line| - 1] == '\n'
            && '\n' !in line[..|line| - 1]
            && IsAscii(line)
  {
    var text := Serialize(resposta, true);
    SerializeIsOneLine(resposta, true);
    assert ResponseLine(resposta)[..|text|] == text;
    AppendAscii(text, "\n");
  }

  /** The number of lines read before end of input: the index of the first
      empty read, or the whole sequence when no read is empty. */
  function LinesBeforeEof(lines: seq<string>): (n: nat)
    ensures n <= |lines|
    ensures forall k :: 0 <= k < n ==> lines[k] != ""
    ensures n < |lines| ==> lines[n] == ""
    decreases |lines|
  {
    if |lines| == 0 || lines[0] == "" then 0 else 1 + LinesBeforeEof(lines[1..])
  }

  /** The loop of `executar`, for a given way of answering one line: read
      until the empty read of end of input, write each answer as one line in
      order, and stop at the first line whose handling raises. */
  method ServeLines(lines: seq<string>, answer: string -> Outcome) returns (out: seq<string>, raised: Option<string>)
    ensures |out| <= LinesBeforeEof(lines)
    ensures forall k :: 0 <= k < |out| ==>
              answer(lines[k]).Returns? && out[k] == ResponseLine(answer(lines[k]).value)
    ensures raised.None? <==> |out| == LinesBeforeEof(lines)
    ensures raised.Some? ==> |out| < LinesBeforeEof(lines) && answer(lines[|out|]).Raises? &&
                             raised.value == answer(lines[|out|]).exception
  {
    out := [];
    raised := None;
    var i := 0;
    while true
      invariant 0 <= i <= LinesBeforeEof(lines)
      invariant |out| == i
      invariant forall k :: 0 <= k < i ==>
                  answer(lines[k]).Returns? && out[k] == ResponseLine(answer(lines[k]).value)
      invariant raised.None?
      decreases |lines| - i
    {
      var linha := if i < |lines| then lines[i] else "";
      if linha == "" {
        break;
      }
      match answer(linha)
      case Raises(e) =>
        raised := Some(e);
        return;
      case Returns(resposta) =>
        out := out + [Serialize(resposta, true) + "\n"];
        i := i + 1;
    }
  }

  /** `executar`: `lines` are the successive results of `readline` (a read
      past its end is the empty string of end of input). Each line is decoded
      and answered, a decode error with `JSON inválido`; any other exception
      ends the server. */
  method Executar(fs: FileSystem, lines: seq<string>, parse: string -> Option<JValue>)
    returns (out: seq<string>, raised: Option<string>)
    ensures |out| <= LinesBeforeEof(lines)
    ensures forall k :: 0 <= k < |out| ==>
              Respond(fs, parse(lines[k])).Returns? && out[k] == ResponseLine(Respond(fs, parse(lines[k])).value)
    ensures raised.None? <==> |out| == LinesBeforeEof(lines)
    ensures raised.Some? ==> |out| < LinesBeforeEof(lines) && Respond(fs, parse(lines[|out|])).Raises? &&
                             raised.value == Respond(fs, parse(lines[|out|])).exception
  {
    out, raised := ServeLines(lines, linha => Respond(fs, parse(linha)));
  }
}
