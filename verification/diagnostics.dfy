/**
  What the checks produce: warnings anchored at a source location, most with a
  fix-it that replaces a source range by new text, appended in order to the
  compiler's diagnostics engine.
 */
module Diagnostics {
  import opened Wrappers

  /** A closed range of character offsets, as `SourceRange(nameStart, nameEnd)`. */
  datatype SourceRange = SourceRange(begin: nat, end: nat)

  /** `nameStart` and `nameStart.getLocWithOffset(length - 1)`: the range holding a name of that length. */
  function NameRange(loc: nat, length: nat): (r: SourceRange)
    requires length >= 1
    ensures r.begin == loc && r.begin <= r.end
    ensures r.end - r.begin + 1 == length
  {
    SourceRange(loc, loc + length - 1)
  }

  /** `FixItHint::CreateReplacement(range, text)`. */
  datatype FixItHint = Replacement(range: SourceRange, text: string)

  /** Which rule a warning reports; the copy warning carries the printed type it embeds. */
  datatype Message =
    | ClassLowercaseName
    | ClassUnderscoreInName
    | PropertyNotCopy(typeStr: string)
    | PropertyUppercaseName
    | PropertyUnderscoreInName
    | DelegateNotWeak
    | MethodUppercaseName
    | ParamUppercaseName
    | MethodOver50Lines

  /** One warning (every diagnostic here has Warning severity). */
  datatype Diagnostic = Diagnostic(loc: nat, message: Message, hint: Option<FixItHint>)

  /** The two plugins word two of their messages differently. */
  datatype Plugin = FYPlugin | CodeCheckPlugin

  /**
    The custom diagnostic format string each plugin registers for a message.
    CodeCheckPlugin has no parameter check and registers no parameter message.
   */
  function FormatString(p: Plugin, m: Message): (r: string)
    requires p == FYPlugin || !m.ParamUppercaseName?
    ensures r != []
  {
    match m
    case ClassLowercaseName => "类名不能以小写字母开头"
    case ClassUnderscoreInName => if p == FYPlugin then "类名中不允许带有下划线" else "类名中不能带有下划线"
    case PropertyNotCopy(_) => "--------- %0 不是使用的 copy 修饰--------"
    case PropertyUppercaseName => if p == FYPlugin then "属性名不能以大写开头" else "属性名称不能以大写开头"
    case PropertyUnderscoreInName => "属性名字不允许有下划线"
    case DelegateNotWeak => "代理属性应该使用weak修饰"
    case MethodUppercaseName => "方法名不应该以大写开头"
    case ParamUppercaseName => "方法中定义的参数名不应该以大写开头"
    case MethodOver50Lines => "单个方法内行数不能超过50行"
  }

  /**
    The two plugins share every wording except those of the class-underscore
    and the property-upper-case messages.
   */
  lemma PluginWordings(m: Message)
    requires !m.ParamUppercaseName?
    ensures FormatString(FYPlugin, m) != FormatString(CodeCheckPlugin, m)
            <==> m.ClassUnderscoreInName? || m.PropertyUppercaseName?
  {
  }

  /** Two reports appended one after another extend the log by their concatenation. */
  lemma AppendTwo<T>(log: seq<T>, a: seq<T>, b: seq<T>)
    ensures log + a + b == log + (a + b)
  {
  }

  /** Three reports appended one after another extend the log by their concatenation. */
  lemma AppendThree<T>(log: seq<T>, a: seq<T>, b: seq<T>, c: seq<T>)
    ensures log + a + b + c == log + (a + b + c)
  {
  }

  /** Four reports appended one after another extend the log by their concatenation. */
  lemma AppendFour<T>(log: seq<T>, a: seq<T>, b: seq<T>, c: seq<T>, e: seq<T>)
    ensures log + a + b + c + e == log + (a + b + c + e)
  {
  }

  /** The diagnostics engine: an append-only record of what was reported. */
  class DiagnosticsEngine {
    var reported: seq<Diagnostic>

    constructor ()
      ensures reported == []
    {
      reported := [];
    }

    /** `diagWaringReport(loc, format, hint)` / `Report(loc, id) << hint`: appends one warning. */
    method Report(loc: nat, message: Message, hint: Option<FixItHint>)
      modifies this
      ensures reported == old(reported) + [Diagnostic(loc, message, hint)]
    {
      reported := reported + [Diagnostic(loc, message, hint)];
    }
  }
}
