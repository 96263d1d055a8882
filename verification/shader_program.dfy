/**
 * `OpenGLShaderProgramWrapped`: a shader program that preprocesses its
 * sources (include paths, autoresolve declarations, a version comment in
 * front) and binds its autoresolved uniform blocks after linking.
 *
 * The collaborators are parameters: the source files are a map from file
 * name to content (a missing name is a file that cannot be opened), the
 * preprocessor `OpenGLSLParser` is a function from its inputs to what it
 * writes, the underlying compile step is a function from stage and text to
 * its result, and the graphics context is its reported version and profile.
 */
module ShaderProgram {
  import opened Wrappers
  import opened VersionDirective
  import opened Autoresolve

  /** `QOpenGLShader::ShaderType`. */
  datatype ShaderType = Vertex | Fragment | Geometry | TessellationControl | TessellationEvaluation | Compute

  /** What the current context reports: `format().version()` and `isOpenGLES()`. */
  datatype ContextFormat = ContextFormat(major: int, minor: int, isES: bool)

  /** What the parser is given: the file's content and path, the include paths, the autoresolve list. */
  datatype ParserInput = ParserInput(source: string, filePath: string, includePaths: seq<string>, autoresolve: seq<string>)

  /**
   * What the parser leaves behind: whether `parse()` succeeded, the text it
   * wrote after the version comment, and the autoresolve list it was handed
   * by address, as it left it.
   */
  datatype ParserOutput = ParserOutput(success: bool, written: string, autoresolve: seq<string>)

  /** `OpenGLSLParser`, whose internals are not part of this model. */
  type Parser = ParserInput -> ParserOutput

  /** `OpenGLShaderProgramChecked::addShaderFromSourceCode`: accepts or rejects a stage's text. */
  type Compiler = (ShaderType, string) -> bool

  /** How `addShaderFromSourceFile` ends. */
  datatype ShaderOutcome =
    | OpenFailed(fileName: string)                               // qFatal: the file cannot be opened
    | ParseFailed                                                // returns false, nothing compiled
    | Compiled(stage: ShaderType, source: string, accepted: bool) // returns what the compile step returned
  {
    /** The value returned to the caller; none when the process is stopped. */
    function Returned(): Option<bool> {
      match this
      case OpenFailed(_) => None
      case ParseFailed => Some(false)
      case Compiled(_, _, accepted) => Some(accepted)
    }
  }

  function ContextComment(ctx: ContextFormat): string {
    VersionComment(ctx.major, ctx.minor, ctx.isES)
  }

  class ShaderProgramWrapped {
    /** `programId()` of the underlying program object. */
    const programId: nat
    /** `m_includePaths`, in the order they were added. */
    var includePaths: seq<string>
    /** `m_autoresolver`, filled by the parser and consumed by `Link`. */
    var autoresolver: seq<string>

    constructor (programId: nat)
      ensures this.programId == programId
      ensures includePaths == [] && autoresolver == []
    {
      this.programId := programId;
      includePaths := [];
      autoresolver := [];
    }

    /** `addIncludePath`: appends `path` and keeps every earlier path in place. */
    method AddIncludePath(path: string)
      modifies this
      ensures includePaths == old(includePaths) + [path]
      ensures autoresolver == old(autoresolver)
    {
      includePaths := includePaths + [path];
    }

    /**
     * `addShaderFromSourceFile`: preprocess `fileName` into a buffer that
     * starts with the version comment, then hand the buffer to the compile
     * step, but only when parsing succeeded.
     */
    method AddShaderFromSourceFile(stage: ShaderType, fileName: string, ctx: ContextFormat,
                                   files: map<string, string>, parser: Parser, compiler: Compiler)
      returns (outcome: ShaderOutcome)
      modifies this
      ensures includePaths == old(includePaths)
      // a file that cannot be opened stops everything before any parsing
      ensures fileName !in files ==> outcome == OpenFailed(fileName) && autoresolver == old(autoresolver)
      // otherwise the parser sees the include paths in insertion order, and fills the autoresolve list
      ensures fileName in files ==>
        var parsed := parser(ParserInput(files[fileName], fileName, old(includePaths), old(autoresolver)));
        && autoresolver == parsed.autoresolve
        && outcome == (if parsed.success
                       then Compiled(stage, ContextComment(ctx) + parsed.written,
                                     compiler(stage, ContextComment(ctx) + parsed.written))
                       else ParseFailed)
      // the compile step sees the version comment first, and runs only after a successful parse
      ensures outcome.Compiled? ==> outcome.stage == stage && ContextComment(ctx) <= outcome.source
      ensures outcome.Compiled? <==>
        fileName in files &&
        parser(ParserInput(files[fileName], fileName, old(includePaths), old(autoresolver))).success
      // the caller gets false after a failed parse and the compile step's answer otherwise
      ensures fileName in files ==>
        var parsed := parser(ParserInput(files[fileName], fileName, old(includePaths), old(autoresolver)));
        outcome.Returned() == Some(parsed.success && compiler(stage, ContextComment(ctx) + parsed.written))
    {
      var ppSource := ContextComment(ctx);
      if fileName !in files {
        return OpenFailed(fileName);
      }
      var reader := files[fileName];
      var parserPaths: seq<string> := [];
      for i := 0 to |includePaths|
        invariant parserPaths == includePaths[..i]
      {
        parserPaths := parserPaths + [includePaths[i]];
      }
      assert includePaths[..|includePaths|] == includePaths;
      var parsed := parser(ParserInput(reader, fileName, parserPaths, autoresolver));
      autoresolver := parsed.autoresolve;
      ppSource := ppSource + parsed.written;
      if parsed.success {
        var accepted := compiler(stage, ppSource);
        outcome := Compiled(stage, ppSource, accepted);
      } else {
        outcome := ParseFailed;
      }
    }

    /**
     * `link`: `linkOk` is what the underlying link returned. With a
     * non-empty autoresolve list, binds the program, binds every listed
     * block's buffer in list order, and releases; the first block without a
     * valid index or without a manager entry is fatal.
     */
    method Link(linkOk: bool, blocks: map<string, nat>, manager: map<string, Ubo>)
      returns (outcome: LinkOutcome, actions: seq<GlAction>)
      ensures (outcome, actions) == LinkRun(linkOk, programId, autoresolver, blocks, manager)
    {
      var ret := linkOk;
      actions := [];
      if autoresolver != [] {
        actions := [Bind(programId)];
        for i := 0 to |autoresolver|
          invariant |actions| == 1 + 2 * i && actions[0] == Bind(programId)
          invariant forall j :: 0 <= j < i ==>
            Resolvable(blocks, manager, autoresolver[j]) &&
            actions[1 + 2 * j] == BindBufferBase(manager[autoresolver[j]].locationId, manager[autoresolver[j]].bufferId) &&
            actions[2 + 2 * j] == UniformBlockBinding(programId, blocks[autoresolver[j]], manager[autoresolver[j]].locationId)
        {
          var resolver := autoresolver[i];
          var loc := UniformBlockLocation(blocks, resolver);
          if loc == InvalidLocation {
            outcome := Fatal(BlockMissing(resolver));
            LinkRunFromBoundPrefix(linkOk, programId, autoresolver, blocks, manager, i, outcome, actions);
            return;
          }
          if resolver !in manager {
            outcome := Fatal(EntryMissing(resolver));
            LinkRunFromBoundPrefix(linkOk, programId, autoresolver, blocks, manager, i, outcome, actions);
            return;
          }
          actions := actions + BindUbo(programId, loc, manager[resolver]);
        }
        LinkRunFromBoundPrefix(linkOk, programId, autoresolver, blocks, manager, |autoresolver|, Linked(ret), actions);
        actions := actions + [Release];
      }
      outcome := Linked(ret);
    }
  }
}
