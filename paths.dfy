/**
 * Filesystem paths, with joining kept abstract: a path is either a root given
 * on the command line or a name joined under another path.  Two paths are the
 * same exactly when they were built the same way.
 */
module Paths {

  datatype Path = Root(text: string) | Join(parent: Path, name: string)

}
