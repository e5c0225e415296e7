/** The logging hook: it reads its context once from standard input, builds one
    event record from it, appends that record as one JSON line to the day's log
    file and exits with success. Standard input, the parser, the clock and the
    log directory's files are parameters and a field. */
module LoggingHook {
  import opened Wrappers
  import opened Strings
  import opened Json

  const DIRETORIO_LOGS := ".claude/logs"
  const DESCONHECIDA := "desconhecida"
  const NAO_ESPECIFICADO := "não especificado"
  const EXECUCAO_FERRAMENTA := "execucao_ferramenta"

  // ---------------------------------------------------------------------------
  // Loading the context
  // ---------------------------------------------------------------------------

  /** `carregar_contexto` as written: empty input and a decode error give `{}`,
      anything else is whatever value the input decodes to, object or not. */
  function CarregarContextoAsWritten(entrada: string, parse: string -> Option<JValue>): (r: JValue)
    ensures entrada == "" ==> r == JObj([])
    ensures entrada != "" && parse(entrada).None? ==> r == JObj([])
    ensures entrada != "" && parse(entrada).Some? ==> r == parse(entrada).value
  {
    if entrada == "" then JObj([])
    else match parse(entrada)
      case None => JObj([])
      case Some(v) => v
  }

  /** The exit status of the hook as written: `.get` on a context that is not
      an object raises an uncaught `AttributeError`, so the process ends with
      status 1 before it reaches `sys.exit(0)`. */
  function ExitCodeAsWritten(entrada: string, parse: string -> Option<JValue>): (code: int)
    ensures code == 0 <==> CarregarContextoAsWritten(entrada, parse).JObj?
    ensures code == 0 || code == 1
  {
    if CarregarContextoAsWritten(entrada, parse).JObj? then 0 else 1
  }

  /** Input that decodes to a JSON array (for example `[]`) makes the hook as
      written fail, although it promises always to succeed. */
  lemma ArrayInputFailsAsWritten(parse: string -> Option<JValue>)
    requires parse("[]") == Some(JArr([]))
    ensures ExitCodeAsWritten("[]", parse) == 1
  {
  }

  /** `carregar_contexto`, with a non-object value read as `{}` as well, so that
      the context is always a dictionary: the fields of the decoded object, and
      no fields for empty input, a decode error or any other value. */
  function CarregarContexto(entrada: string, parse: string -> Option<JValue>): (contexto: Fields)
    ensures entrada == "" || parse(entrada).None? ==> contexto == []
    ensures entrada != "" && parse(entrada).Some? && parse(entrada).value.JObj? ==>
              contexto == parse(entrada).value.fields
    ensures entrada != "" && parse(entrada).Some? && !parse(entrada).value.JObj? ==> contexto == []
  {
    match CarregarContextoAsWritten(entrada, parse)
    case JObj(fields) => fields
    case _ => []
  }

  /** The corrected reading agrees with the written one whenever the input is an object or unusable. */
  lemma CarregarContextoAgrees(entrada: string, parse: string -> Option<JValue>)
    ensures CarregarContextoAsWritten(entrada, parse).JObj? ==>
              CarregarContextoAsWritten(entrada, parse) == JObj(CarregarContexto(entrada, parse))
    ensures !CarregarContextoAsWritten(entrada, parse).JObj? ==> CarregarContexto(entrada, parse) == []
  {
  }

  // ---------------------------------------------------------------------------
  // The event record
  // ---------------------------------------------------------------------------

  /** The record `registrar_evento` writes: the time, the event type, the tool
      named by the context (`desconhecida` when it names none) and the data. */
  function Evento(contexto: Fields, timestamp: string, tipo: string, dados: Fields): (evento: JValue)
    ensures evento.JObj? && Keys(evento.fields) == ["timestamp", "tipo", "ferramenta", "dados"]
    ensures Get(evento.fields, "timestamp") == Some(JStr(timestamp))
    ensures Get(evento.fields, "tipo") == Some(JStr(tipo))
    ensures Get(contexto, "tool").Some? ==> Get(evento.fields, "ferramenta") == Get(contexto, "tool")
    ensures Get(contexto, "tool").None? ==> Get(evento.fields, "ferramenta") == Some(JStr(DESCONHECIDA))
    ensures Get(evento.fields, "dados") == Some(JObj(dados))
  {
    var fields := [ ("timestamp", JStr(timestamp)),
                    ("tipo", JStr(tipo)),
                    ("ferramenta", GetOr(contexto, "tool", JStr(DESCONHECIDA))),
                    ("dados", JObj(dados)) ];
    GetAt(fields, 1);
    GetAt(fields, 2);
    GetAt(fields, 3);
    JObj(fields)
  }

  /** The data `executar` records: the context's input (`{}` when absent) and
      its purpose (`não especificado` when absent). */
  function DadosExecucao(contexto: Fields): (dados: Fields)
    ensures Keys(dados) == ["entrada", "proposito"]
    ensures Get(contexto, "input").Some? ==> Get(dados, "entrada") == Get(contexto, "input")
    ensures Get(contexto, "input").None? ==> Get(dados, "entrada") == Some(JObj([]))
    ensures Get(contexto, "purpose").Some? ==> Get(dados, "proposito") == Get(contexto, "purpose")
    ensures Get(contexto, "purpose").None? ==> Get(dados, "proposito") == Some(JStr(NAO_ESPECIFICADO))
  {
    [ ("entrada", GetOr(contexto, "input", JObj([]))),
      ("proposito", GetOr(contexto, "purpose", JStr(NAO_ESPECIFICADO))) ]
  }

  /** The day's log file, for the date as `strftime('%Y-%m-%d')` writes it. */
  function ArquivoLog(diretorio: string, data: string): (caminho: string)
    ensures |caminho| > |diretorio| && caminho[..|diretorio|] == diretorio
    ensures |caminho| >= 6 && caminho[|caminho| - 6..] == ".jsonl"
  {
    PrefixOfConcat(diretorio, "/eventos_" + data + ".jsonl");
    diretorio + "/eventos_" + data + ".jsonl"
  }

  /** One file per day: the date is read back from the file name, so
      different dates never share a file. */
  lemma ArquivoLogPerDay(diretorio: string, data: string, data': string)
    ensures var caminho := ArquivoLog(diretorio, data);
            var prefixo := diretorio + "/eventos_";
            && |caminho| == |prefixo| + |data| + 6
            && caminho[|prefixo|..|caminho| - 6] == data
    ensures data != data' ==> ArquivoLog(diretorio, data) != ArquivoLog(diretorio, data')
  {
    var prefixo := diretorio + "/eventos_";
    var caminho := prefixo + data + ".jsonl";
    var caminho' := prefixo + data' + ".jsonl";
    assert caminho[|prefixo|..|caminho| - 6] == data;
    assert caminho'[|prefixo|..|caminho'| - 6] == data';
  }

  // ---------------------------------------------------------------------------
  // Log text
  // ---------------------------------------------------------------------------

  /** The number of complete lines of a text: its newline characters. */
  function LineCount(text: string): nat
    decreases |text|
  {
    if |text| == 0 then 0
    else LineCount(text[..|text| - 1]) + (if text[|text| - 1] == '\n' then 1 else 0)
  }

  lemma {:induction false} LineCountAppend(a: string, b: string)
    ensures LineCount(a + b) == LineCount(a) + LineCount(b)
    decreases |b|
  {
    if |b| > 0 {
      assert (a + b)[..|a + b| - 1] == a + b[..|b| - 1];
      LineCountAppend(a, b[..|b| - 1]);
    } else {
      assert a + b == a;
    }
  }

  lemma {:induction false} LineCountNoNewline(s: string)
    requires '\n' !in s
    ensures LineCount(s) == 0
    decreases |s|
  {
    if |s| > 0 {
      LineCountNoNewline(s[..|s| - 1]);
    }
  }

  /** Appending a text without newlines and then a newline adds one line and keeps the rest. */
  lemma AppendLine(log: string, linha: string)
    requires '\n' !in linha
    ensures var novo := log + (linha + "\n");
            && novo[..|log|] == log
            && novo[|log|..] == linha + "\n"
            && LineCount(novo) == LineCount(log) + 1
  {
    LineCountNoNewline(linha);
    LineCountAppend(linha, "\n");
    assert LineCount("\n") == 1 by {
      assert "\n"[..0] == "";
    }
    LineCountAppend(log, linha + "\n");
  }

  /** The text of a log file, empty when the file does not exist yet. */
  function LogText(logs: map<string, string>, caminho: string): string {
    if caminho in logs then logs[caminho] else ""
  }

  // ---------------------------------------------------------------------------
  // The hook
  // ---------------------------------------------------------------------------

  /** `GanchoBasico`: the context it was started with, its log directory, and
      the text of each file of that directory. */
  class Gancho {
    const contexto: Fields
    const diretorioLogs: string
    var logs: map<string, string>

    /** `__init__`: load the context from standard input; the directory's
        files are those already present. */
    constructor (entrada: string, parse: string -> Option<JValue>, existentes: map<string, string>)
      ensures contexto == CarregarContexto(entrada, parse)
      ensures diretorioLogs == DIRETORIO_LOGS
      ensures logs == existentes
    {
      contexto := CarregarContexto(entrada, parse);
      diretorioLogs := DIRETORIO_LOGS;
      logs := existentes;
    }

    /** `registrar_evento`: build the record and append it, as one line, to the
        file of the given date; no other file changes. */
    method RegistrarEvento(tipo: string, dados: Fields, timestamp: string, data: string) returns (evento: JValue)
      modifies this
      ensures evento == Evento(contexto, timestamp, tipo, dados)
      ensures var caminho := ArquivoLog(diretorioLogs, data);
              && logs == old(logs)[caminho := LogText(old(logs), caminho) + (Serialize(evento, false) + "\n")]
              && logs[caminho][..|LogText(old(logs), caminho)|] == LogText(old(logs), caminho)
              && LineCount(logs[caminho]) == LineCount(LogText(old(logs), caminho)) + 1
    {
      evento := Evento(contexto, timestamp, tipo, dados);
      var caminho := ArquivoLog(diretorioLogs, data);
      var linha := Serialize(evento, false);
      SerializeIsOneLine(evento, false);
      AppendLine(LogText(logs, caminho), linha);
      logs := logs[caminho := LogText(logs, caminho) + (linha + "\n")];
    }

    /** `executar`: record the tool execution with the context's input and
        purpose, and exit with status 0 whatever the context held. */
    method Executar(timestamp: string, data: string) returns (code: int, evento: JValue)
      modifies this
      ensures code == 0
      ensures evento == Evento(contexto, timestamp, EXECUCAO_FERRAMENTA, DadosExecucao(contexto))
      ensures var caminho := ArquivoLog(diretorioLogs, data);
              && logs == old(logs)[caminho := LogText(old(logs), caminho) + (Serialize(evento, false) + "\n")]
              && LineCount(logs[caminho]) == LineCount(LogText(old(logs), caminho)) + 1
    {
      evento := RegistrarEvento(EXECUCAO_FERRAMENTA, DadosExecucao(contexto), timestamp, data);
      code := 0;
    }
  }
}
