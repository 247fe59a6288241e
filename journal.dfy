/**
 * The mood journal screen: a list of stored entries, an editor with a text
 * and a selected mood, and a theme table keyed by mood name. Saving refuses
 * text that is empty after trimming; otherwise it prepends the entry via the
 * store and resets the editor.
 */
module Journal {
  import opened Types
  import opened Storage
  import opened TextTrim

  // ---------------------------------------------------------------------
  // The theme table
  // ---------------------------------------------------------------------

  /** The key a mood is stored under, and the key of its theme. */
  function MoodName(m: Mood): string
  {
    match m
    case Happy => "happy"
    case Calm => "calm"
    case Tired => "tired"
    case Stressed => "stressed"
    case Sad => "sad"
  }

  /** The theme a key selects: that mood's own theme when the table has one, otherwise calm's. */
  function ThemeFor(key: string): (m: Mood)
    ensures (exists k :: MoodName(k) == key) ==> MoodName(m) == key
    ensures (forall k :: MoodName(k) != key) ==> m == Calm
  {
    if key == "happy" then Happy
    else if key == "calm" then Calm
    else if key == "tired" then Tired
    else if key == "stressed" then Stressed
    else if key == "sad" then Sad
    else Calm
  }

  /** Looking up a mood's own name selects that mood's theme. */
  lemma ThemeForName(m: Mood)
    ensures ThemeFor(MoodName(m)) == m
  {
  }

  // ---------------------------------------------------------------------
  // The component's state
  // ---------------------------------------------------------------------

  class JournalView {
    var entries: seq<JournalEntry>
    var isWriting: bool
    var newText: string
    var selectedMood: Mood

    /** Initial state, with the stored entries loaded as the mount effect does. */
    constructor (store: Store)
      ensures entries == store.GetJournalEntries()
      ensures !isWriting && newText == "" && selectedMood == Calm
    {
      entries := store.GetJournalEntries();
      isWriting := false;
      newText := "";
      selectedMood := Calm;
    }

    /** The theme the editor is drawn in. */
    function CurrentTheme(): (m: Mood)
      reads this`selectedMood
      ensures m == selectedMood
    {
      ThemeFor(MoodName(selectedMood))
    }

    /** The buttons that open the editor. */
    method StartWriting()
      modifies this`isWriting
      ensures isWriting
    {
      isWriting := true;
    }

    /** The editor's close button. */
    method CloseEditor()
      modifies this`isWriting
      ensures !isWriting
    {
      isWriting := false;
    }

    /** Typing in the editor. */
    method EditText(text: string)
      modifies this`newText
      ensures newText == text
    {
      newText := text;
    }

    /** One of the mood buttons. */
    method SelectMood(mood: Mood)
      modifies this`selectedMood
      ensures selectedMood == mood
    {
      selectedMood := mood;
    }

    /**
     * The save button. Text that trims to nothing changes nothing. Otherwise the untrimmed
     * text and the selected mood are saved as a new entry in front of the
     * stored ones, the list shows the store's result, and the editor closes
     * with empty text and the calm mood.
     */
    method HandleSave(store: Store, id: string, now: Timestamp)
      modifies this, store`journal
      ensures Blank(old(newText)) ==> unchanged(this) && store.journal == old(store.journal)
      ensures !Blank(old(newText)) ==>
        var saved := JournalEntry(id, now, old(newText), old(selectedMood));
        && store.journal == Present([saved] + old(store.GetJournalEntries()))
        && entries == store.GetJournalEntries()
        && newText == "" && !isWriting && selectedMood == Calm
    {
      var blank := TrimsToEmpty(newText);
      if blank {
        return;
      }
      var entry := JournalEntry(id, now, newText, selectedMood);
      var updated := store.SaveJournalEntry(entry);
      entries := updated;
      newText := "";
      isWriting := false;
      selectedMood := Calm;
    }
  }
}
