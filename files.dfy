/** Files the components keep their state in, reduced to their text. */
module Files {
  import opened Wrappers

  /** A text file: its contents, or None while it does not exist. */
  class TextFile {
    var content: Option<string>

    constructor (content: Option<string>)
      ensures this.content == content
    {
      this.content := content;
    }

    /** Path.write_text: the file now holds exactly `text`. */
    method Write(text: string)
      modifies this
      ensures content == Some(text)
    {
      content := Some(text);
    }
  }

  /** A directory of text files: whether it exists, and each file's text by its path relative to the
      directory ("a.sig", "archived/a.sig"). */
  class Folder {
    var present: bool
    var files: map<string, string>

    constructor (present: bool, files: map<string, string>)
      ensures this.present == present && this.files == files
    {
      this.present := present;
      this.files := files;
    }

    /** mkdir(parents=True, exist_ok=True). */
    method MakeDir()
      modifies this
      ensures present && files == old(files)
    {
      present := true;
    }

    /** mkdir(parents=True, exist_ok=True) and then writing `text` at `name`, replacing any file
        already there. */
    method Write(name: string, text: string)
      modifies this
      ensures present && files == old(files)[name := text]
    {
      present := true;
      files := files[name := text];
    }

    /** os.replace: `src` is gone and `dst` holds its text. */
    method Move(src: string, dst: string)
      requires src in files
      modifies this
      ensures present == old(present)
      ensures files == (old(files) - {src})[dst := old(files)[src]]
    {
      files := (files - {src})[dst := files[src]];
    }
  }
}
