/**
 * The instruction sent with every image: the fixed base query followed by a
 * suffix chosen by the explanation mode picked in the radio widget.
 */
module Prompt {

  /** The fixed base instruction, including its leading and trailing newline. */
  const BaseQuery: string := "\nAnda adalah asisten AI analisis citra medis yang bertugas secara bertanggung jawab dan etis.\n\n1. Validasi Gambar: Tentukan apakah gambar merupakan citra medis valid (X-ray, CT, MRI, USG). Jika bukan, nyatakan tidak dapat dianalisis.\n2. Jenis & Area Gambar: Identifikasi jenis pencitraan dan area anatomi.\n3. Temuan Utama: Jelaskan kelainan atau temuan secara sistematis.\n4. Penilaian Diagnostik: Diagnosis paling mungkin dan 3 diagnosis banding.\n5. Risiko: Skor keyakinan (0.0-1.0) dan Klasifikasi risiko (Rendah/Sedang/Tinggi).\n6. Ringkasan: Maksimal 5 poin eksekutif.\n7. Rekomendasi: Saran umum tanpa dosis obat.\n8. Penjelasan Ramah Pasien: Gunakan bahasa yang mudah dimengerti.\n\nAnalisis ini hanya untuk edukasi, bukan diagnosis resmi.\n"

  /** The two options of the mode radio widget. */
  const ClinicalMode: string := "Tenaga Medis"
  const LayMode: string := "Pasien / Umum"

  const ClinicalSuffix: string := "\nGunakan istilah medis profesional."
  const LaySuffix: string := "\nGunakan bahasa yang sangat sederhana."

  predicate EndsWith(s: string, suffix: string)
  {
    |suffix| <= |s| && s[|s| - |suffix|..] == suffix
  }

  /** Neither suffix is a tail of a string that ends with the other one. */
  lemma SuffixesExclusive(s: string)
    ensures !(EndsWith(s, ClinicalSuffix) && EndsWith(s, LaySuffix))
  {
    if EndsWith(s, ClinicalSuffix) {
      assert s[|s| - 2] == ClinicalSuffix[|ClinicalSuffix| - 2] == 'l';
    }
  }

  /**
   * The query for a mode: the base query verbatim as a prefix, then the
   * clinical suffix exactly when the mode is the clinical one, and the lay
   * suffix for every other mode string.
   */
  function BuildQuery(mode: string): (q: string)
    ensures BaseQuery <= q
    ensures EndsWith(q, ClinicalSuffix) <==> mode == ClinicalMode
    ensures EndsWith(q, LaySuffix) <==> mode != ClinicalMode
  {
    var q := BaseQuery + (if mode == ClinicalMode then ClinicalSuffix else LaySuffix);
    SuffixesExclusive(q);
    assert q[|q| - |ClinicalSuffix|..] == ClinicalSuffix || q[|q| - |LaySuffix|..] == LaySuffix;
    q
  }

  /**
   * Two modes yield the same query exactly when both or neither are the
   * clinical mode: the query carries one bit of the mode and nothing else.
   */
  lemma QueryDeterminesAudience(m1: string, m2: string)
    ensures BuildQuery(m1) == BuildQuery(m2) <==> (m1 == ClinicalMode <==> m2 == ClinicalMode)
  {
    if BuildQuery(m1) == BuildQuery(m2) {
      SuffixesExclusive(BuildQuery(m1));
    }
  }

  /** The query minus the base query is the suffix of the mode. */
  lemma QuerySplits(mode: string)
    ensures BuildQuery(mode)[|BaseQuery|..] == (if mode == ClinicalMode then ClinicalSuffix else LaySuffix)
  {
  }

  /** The two radio options select different suffixes. */
  lemma RadioOptionsDiffer()
    ensures EndsWith(BuildQuery(ClinicalMode), ClinicalSuffix)
    ensures EndsWith(BuildQuery(LayMode), LaySuffix)
    ensures BuildQuery(ClinicalMode) != BuildQuery(LayMode)
  {
    QueryDeterminesAudience(ClinicalMode, LayMode);
  }
}
