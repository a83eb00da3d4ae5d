/** The two display languages of the kiosk views, Italian first. */
module Language {

  datatype Lang = It | En

  /** `currentLanguage === 'en' ? 'it' : 'en'` */
  function Flip(l: Lang): (r: Lang)
    ensures r != l
  {
    if l == En then It else En
  }

  lemma FlipTwice(l: Lang)
    ensures Flip(Flip(l)) == l
  {
  }
}
