# OpenGLShaderProgramWrapped, modelled in Dafny

`OpenGLShaderProgramWrapped` (OpenGL/openglshaderprogram.cpp) is a Qt shader
program that does two things the GL driver does not do:

- It preprocesses each shader source file before compiling it. An
  `OpenGLSLParser` resolves includes against the program's include paths and
  collects "autoresolve" uniform-block names. The parser writes into a buffer
  that already starts with a `#version` line computed from the current
  context.
- After linking, it binds every autoresolved uniform block to the buffer
  object of the same name in the process-wide `OpenGLUniformBufferManager`.

The model has five modules:

- `Decimal`: `Number`, the decimal rendering that `QString::number(int)`
  performs, with `ParseNumber` as its inverse.
- `VersionDirective`: `getVersionComment` as the pure function
  `VersionComment(major, minor, isES)`. Its reference definition is
  `GlslVersion`, the shading-language version as a number. The lemmas state
  the whole table: the ES rule, desktop 2.x, desktop 3.0-3.2, and the
  concatenating default.
- `Autoresolve`: the loop inside `link()`. GL calls are recorded as `GlAction`
  values: `Bind`, `BindBufferBase`, `UniformBlockBinding` and `Release`. The
  linked program's uniform blocks are a map from name to block index, and a
  missing name reads as `InvalidLocation`. The buffer manager is a read-only
  map from name to `Ubo(locationId, bufferId)`. Each `qFatal` becomes a `Fatal`
  outcome that carries the offending name (`BlockMissing` or `EntryMissing`).
  `ResolveAll` and `LinkRun` specify the loop.
- `ShaderProgram`: the class `ShaderProgramWrapped`. Its `includePaths` and
  `autoresolver` fields are the private `m_includePaths` and `m_autoresolver`.
  It has the methods `AddIncludePath`, `AddShaderFromSourceFile` and `Link`.
  `Link` is proved against `LinkRun`.
- `Wrappers`: `Option`.

Collaborators are inputs:

- The source files are a map from file name to content. A name that is not in
  the map is a file that cannot be opened.
- The parser is a total function from a `ParserInput` (content, file path,
  include paths, current autoresolve list) to a `ParserOutput` (success, the
  text written after the version comment, the autoresolve list as left by the
  parser). The source hands the parser `m_autoresolver` by address, so the
  model stores the returned list whether or not parsing succeeded.
- The compile step `addShaderFromSourceCode` is a function from stage and text
  to its boolean result.
- The context's version and ES flag are a `ContextFormat` value.
- The result of the underlying `OpenGLShaderProgramChecked::link()` is the
  `linkOk` parameter.

Some of the behaviour may be unexpected:

- The autoresolve loop runs whether or not the underlying link succeeded, and
  `link()` returns that link result unchanged (lines 164-186).
- A fatal autoresolve error stops the run before `release()`, so a `Fatal` run
  records no `Release` action.
- For an OpenGL ES context the directive is always the two numbers
  concatenated, a zero and ` es`. An ES 2.0 context therefore gets
  `#version 200 es`, a version that the OpenGL ES Shading Language does not
  define. The model keeps this behaviour as written.
- The concatenation equals `major * 100 + minor * 10` only for one-digit
  minors: `CommentStatesGlslVersion` requires `0 <= minor < 10`, and a
  desktop 4.10 context would read `#version 4100`.

## Model

| member | source | states |
|---|---|---|
| Decimal.NatDigits | OpenGL/openglshaderprogram.cpp:115 | the decimal text of a natural number is non-empty and all digits; it starts with '0' only for zero, and it has one digit exactly below ten |
| Decimal.Number | OpenGL/openglshaderprogram.cpp:115 | `QString::number` text: non-empty, a leading '-' exactly for negatives, digits everywhere else |
| Decimal.NatDigitsAppend | OpenGL/openglshaderprogram.cpp:148 | appending a digit d to the text of k >= 1 gives the text of 10k + d |
| Decimal.ParseNatDigits | OpenGL/openglshaderprogram.cpp:115 | reading the digits of n back gives n |
| Decimal.ParseNumberRoundTrip | OpenGL/openglshaderprogram.cpp:115 | `ParseNumber(Number(i)) == i` for every integer i |
| Decimal.NumberInjective | OpenGL/openglshaderprogram.cpp:115 | two integers have the same text exactly when they are equal |
| VersionDirective.VersionComment | OpenGL/openglshaderprogram.cpp:102-159 | `getVersionComment`: "#version " + the nested switch's text + "\n"; the character before the newline is the 's' of " es" exactly on ES contexts, and the version's final '0' otherwise |
| VersionDirective.VersionText | OpenGL/openglshaderprogram.cpp:109-156 | what the switch appends is at least three characters and holds no newline |
| VersionDirective.CommentShape | OpenGL/openglshaderprogram.cpp:102-159 | for every (major, minor, isES) the comment starts with "#version ", ends with "\n" and holds no other newline |
| VersionDirective.EsComment | OpenGL/openglshaderprogram.cpp:113-116 | ES contexts get "#version " + number(major) + number(minor) + "0 es\n" |
| VersionDirective.EsThreeZero | OpenGL/openglshaderprogram.cpp:113-116 | ES 3.0 gives "#version 300 es\n" |
| VersionDirective.DesktopTwo | OpenGL/openglshaderprogram.cpp:119-134 | desktop 2.0 gives 110; 2.1 and every other 2.x minor, negative ones included, give 120 |
| VersionDirective.DesktopThree | OpenGL/openglshaderprogram.cpp:135-146 | desktop 3.0, 3.1, 3.2 give 130, 140, 150 |
| VersionDirective.DesktopDefault | OpenGL/openglshaderprogram.cpp:147-154 | every other desktop version (3.x beyond 3.2, any major but 2 and 3) gives number(major) + number(minor) + "0" |
| VersionDirective.DesktopFourFive | OpenGL/openglshaderprogram.cpp:152-154 | desktop 4.5 gives "#version 450\n" |
| VersionDirective.ConcatenatedDigits | OpenGL/openglshaderprogram.cpp:148 | for major >= 1 and a one-digit minor, the concatenation spells major * 100 + minor * 10 |
| VersionDirective.CommentStatesGlslVersion | OpenGL/openglshaderprogram.cpp:102-159 | for major >= 1 and a one-digit minor, the comment is "#version " + the decimal `GlslVersion` (the table of 110/120/130/140/150, otherwise major * 100 + minor * 10) + " es" on ES + "\n" |
| Autoresolve.UniformBlockLocation | OpenGL/openglshaderprogram.cpp:95-100 | `uniformBlockLocation`: a block the program has reads as its own index; any valid index is the program's own index for that name, so a block the program does not have reads as InvalidLocation |
| Autoresolve.BindUbo | OpenGL/openglshaderprogram.cpp:87-93 | `uniformBlockBinding(index, ubo)`: glBindBufferBase(locationId, bufferId) then glUniformBlockBinding(program, index, locationId), so the block is attached to the binding point the buffer was bound to |
| Autoresolve.BindUboByName | OpenGL/openglshaderprogram.cpp:79-85 | `uniformBlockBinding(name, ubo)`: the same two calls with the looked-up index, unchecked, so an unknown block's InvalidLocation reaches glUniformBlockBinding |
| Autoresolve.ResolveAll | OpenGL/openglshaderprogram.cpp:168-183 | the autoresolve loop: two binding calls per name bound, no more than two per listed name, all of them for a full run, only buffer and block bindings, and a failure names a listed name |
| Autoresolve.LinkRun | OpenGL/openglshaderprogram.cpp:161-187 | `link()`: an empty list gives the link result and no calls; otherwise Bind comes first, a returned run ends with Release and returns the link result, and a fatal run releases nothing and names a listed block |
| Autoresolve.FirstUnresolvable | OpenGL/openglshaderprogram.cpp:168-183 | the index of the first name without a valid block index or manager entry; every earlier name has both |
| Autoresolve.ResolveAllStopsAtFirstUnresolvable | OpenGL/openglshaderprogram.cpp:168-183 | in list order, each name before the first unresolvable one k yields exactly one glBindBufferBase(locationId, bufferId) then one glUniformBlockBinding(program, blockIndex, locationId), the pair of lines 87-93; nothing after; the failure names names[k], with a missing block reported before a missing manager entry |
| Autoresolve.ResolveAllSucceedsIff | OpenGL/openglshaderprogram.cpp:168-183 | autoresolve succeeds exactly when every listed name has a valid block index and a manager entry |
| Autoresolve.LinkRunProtocol | OpenGL/openglshaderprogram.cpp:161-187 | empty list: no call at all and the underlying link result is returned; otherwise bind, the bindings of the names before the first unresolvable one in order, then release and the link result, or a fatal error naming that name with no release |
| Autoresolve.LinkActionsIgnoreLinkResult | OpenGL/openglshaderprogram.cpp:164-167 | the underlying link result does not change which GL calls autoresolve makes |
| Autoresolve.LinkRunFromBoundPrefix | OpenGL/openglshaderprogram.cpp:165-185 | a run that bound the program and then the first k names and stops at k is the `LinkRun` run, with release added when k is the list's end |
| ShaderProgram.ShaderProgramWrapped.constructor | OpenGL/openglshaderprogram.cpp:19-33 | a new program has no include paths and an empty autoresolve list |
| ShaderProgram.ShaderProgramWrapped.AddIncludePath | OpenGL/openglshaderprogram.cpp:40-43 | the path is appended at the end; earlier paths stay in place and in order; the autoresolve list is unchanged |
| ShaderProgram.ShaderProgramWrapped.AddShaderFromSourceFile | OpenGL/openglshaderprogram.cpp:50-77 | an unopenable file is fatal before any parsing; the parser gets the include paths in insertion order; the compiled text is the version comment followed by the parser's output; compile runs exactly when parsing succeeded and its result is returned; a parse failure returns false |
| ShaderProgram.ShaderProgramWrapped.Link | OpenGL/openglshaderprogram.cpp:161-187 | outcome and GL calls equal `LinkRun` over the program's autoresolve list (see LinkRunProtocol) |

## Left out

- `addSharedIncludePath` (lines 45-48) forwards to a static of `OpenGLSLParser`, whose shared include paths are not part of this model.
- `OpenGLSLParser` itself, including include resolution, shared paths and cycle handling, is an uninterpreted function parameter.
- File reading (`KBufferedFileReader`) and the text writer (`KStringWriter`) are not modelled. A file is a map entry. The writer is assumed to append after the version comment already in the buffer.
- GL calls are recorded as actions, not executed. `glGetUniformBlockIndex` is a lookup in a map of the program's blocks.
- `OpenGLUniformBufferObject::InvalidLocation` is declared in a header that is not part of this model. It is taken to be GL's invalid index, 0xFFFFFFFF. No lemma depends on its value.
- `QOpenGLContext::currentContext()` and its format are not modelled. Version and profile are a `ContextFormat` input.
- `qFatal` ends the process. Here it is an outcome (`OpenFailed`, `Fatal`), and the unreachable `return false` after it has no counterpart. The diagnostic message text is not modelled, only the name it carries.
- The pimpl allocation and the destructor (lines 29-38) are not modelled. The private fields are plain fields of the class.
- The bookkeeping of the base classes `OpenGLShaderProgramChecked` and `QOpenGLShaderProgram` (compiled stages, link state) is not modelled. Only the results of their compile and link calls enter the model.
- ShaderProgram.ShaderProgramWrapped.AddIncludePath: keeps a copy of the path. The source stores the caller's `const char*` without copying it, so the caller must keep that text alive and unchanged until the last `addShaderFromSourceFile`; a freed or reused buffer is not modelled.
- ShaderProgram.ShaderProgramWrapped.AddShaderFromSourceFile: hands the whole text to the compile step. The source passes `ppSource.c_str()`, so the compiler sees the text only up to the first NUL; the model assumes the parser writes no NUL.
